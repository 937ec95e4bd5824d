/**
 * The client half of lib/weather-api.ts with the network taken out: the
 * HTTP response arrives as a value (its ok flag, its status text and its
 * decoded JSON body), and what is modelled is the decision taken on it —
 * fail on a non-ok status, otherwise reshape the provider's flat field
 * names into the application's nested records.
 */
module WeatherClient {
  import opened Wrappers

  /** A response of the forecast or the geocoding provider, body already decoded. */
  datatype HttpResponse<B> = HttpResponse(ok: bool, statusText: string, body: B)

  /** Why a fetch fails. An ApiError is the Error thrown on a non-ok status;
      a MalformedResponse is the TypeError JavaScript raises when the body
      lacks a block the reshape reads fields from. */
  datatype FetchError = ApiError(message: string) | MalformedResponse(missingBlock: string)

  /** A fetch either produces a whole value or fails; a failure carries no
      partial data. */
  datatype Result<T> = Ok(value: T) | Err(error: FetchError)

  // Forecast: the provider's field names

  datatype CurrentPayload = CurrentPayload(
    temperature2m: real,
    weatherCode: int,
    windSpeed10m: real,
    relativeHumidity2m: real,
    apparentTemperature: real,
    pressureMsl: real,
    visibility: real,
    uvIndex: real,
    time: string)

  datatype DailyPayload = DailyPayload(
    time: seq<string>,
    weatherCode: seq<int>,
    temperature2mMax: seq<real>,
    temperature2mMin: seq<real>,
    precipitationProbabilityMax: seq<real>,
    windSpeed10mMax: seq<real>)

  datatype ForecastPayload = ForecastPayload(
    latitude: real,
    longitude: real,
    timezone: string,
    current: Option<CurrentPayload>,
    daily: Option<DailyPayload>)

  // Forecast: the application's shape

  datatype CurrentConditions = CurrentConditions(
    temperature: real,
    weatherCode: int,
    windSpeed: real,
    humidity: real,
    pressure: real,
    visibility: real,
    feelsLike: real,
    uvIndex: real,
    time: string)

  datatype DailyForecast = DailyForecast(
    time: seq<string>,
    weatherCode: seq<int>,
    temperatureMax: seq<real>,
    temperatureMin: seq<real>,
    precipitationProbabilityMax: seq<real>,
    windSpeedMax: seq<real>)

  datatype WeatherData = WeatherData(
    latitude: real,
    longitude: real,
    timezone: string,
    current: CurrentConditions,
    daily: DailyForecast)

  /** The six daily series of the provider have one entry per day. */
  predicate PayloadAligned(d: DailyPayload) {
    var n := |d.time|;
    |d.weatherCode| == n && |d.temperature2mMax| == n && |d.temperature2mMin| == n
    && |d.precipitationProbabilityMax| == n && |d.windSpeed10mMax| == n
  }

  /** The six daily series of a snapshot have one entry per day. */
  predicate ForecastAligned(d: DailyForecast) {
    var n := |d.time|;
    |d.weatherCode| == n && |d.temperatureMax| == n && |d.temperatureMin| == n
    && |d.precipitationProbabilityMax| == n && |d.windSpeedMax| == n
  }

  /** Renames the current conditions; nothing is lost or moved between
      fields, since the provider's record can be rebuilt from the result. */
  function ReshapeCurrent(c: CurrentPayload): (r: CurrentConditions)
    ensures FlattenCurrent(r) == c
  {
    CurrentConditions(
      temperature := c.temperature2m,
      weatherCode := c.weatherCode,
      windSpeed := c.windSpeed10m,
      humidity := c.relativeHumidity2m,
      pressure := c.pressureMsl,
      visibility := c.visibility,
      feelsLike := c.apparentTemperature,
      uvIndex := c.uvIndex,
      time := c.time)
  }

  /** Renames the daily series; each keeps its length, so the snapshot's
      series line up exactly when the provider's did. */
  function ReshapeDaily(d: DailyPayload): (r: DailyForecast)
    ensures |r.time| == |d.time| && |r.weatherCode| == |d.weatherCode|
    ensures |r.temperatureMax| == |d.temperature2mMax| && |r.temperatureMin| == |d.temperature2mMin|
    ensures |r.precipitationProbabilityMax| == |d.precipitationProbabilityMax|
    ensures |r.windSpeedMax| == |d.windSpeed10mMax|
    ensures ForecastAligned(r) <==> PayloadAligned(d)
    ensures FlattenDaily(r) == d
  {
    DailyForecast(
      time := d.time,
      weatherCode := d.weatherCode,
      temperatureMax := d.temperature2mMax,
      temperatureMin := d.temperature2mMin,
      precipitationProbabilityMax := d.precipitationProbabilityMax,
      windSpeedMax := d.windSpeed10mMax)
  }

  /** The provider's current block the conditions were made from. */
  function FlattenCurrent(c: CurrentConditions): CurrentPayload {
    CurrentPayload(
      temperature2m := c.temperature,
      weatherCode := c.weatherCode,
      windSpeed10m := c.windSpeed,
      relativeHumidity2m := c.humidity,
      apparentTemperature := c.feelsLike,
      pressureMsl := c.pressure,
      visibility := c.visibility,
      uvIndex := c.uvIndex,
      time := c.time)
  }

  /** The provider's daily block the forecast was made from. */
  function FlattenDaily(d: DailyForecast): DailyPayload {
    DailyPayload(
      time := d.time,
      weatherCode := d.weatherCode,
      temperature2mMax := d.temperatureMax,
      temperature2mMin := d.temperatureMin,
      precipitationProbabilityMax := d.precipitationProbabilityMax,
      windSpeed10mMax := d.windSpeedMax)
  }

  /** The provider body a snapshot was made from: the reshape written
      backwards, used to state that the reshape loses and alters nothing. */
  function Flatten(w: WeatherData): ForecastPayload {
    ForecastPayload(w.latitude, w.longitude, w.timezone,
                    Some(FlattenCurrent(w.current)), Some(FlattenDaily(w.daily)))
  }

  /** The status check and reshape of fetchWeatherData. A non-ok status fails
      with the status text; a body without its current or daily block fails
      as the field access would; otherwise the snapshot holds exactly the
      body's values, under the application's names. */
  function FetchWeatherData(response: HttpResponse<ForecastPayload>): (r: Result<WeatherData>)
    ensures !response.ok ==> r == Err(ApiError("Weather API error: " + response.statusText))
    ensures r.Err? ==> (r.error.ApiError? <==> !response.ok)
    ensures response.ok && response.body.current.None? ==> r == Err(MalformedResponse("current"))
    ensures (response.ok && response.body.current.Some? && response.body.daily.None?) ==>
              r == Err(MalformedResponse("daily"))
    ensures r.Ok? <==> response.ok && response.body.current.Some? && response.body.daily.Some?
    ensures r.Ok? ==> Flatten(r.value) == response.body
    ensures r.Ok? ==> (ForecastAligned(r.value.daily) <==> PayloadAligned(response.body.daily.value))
  {
    if !response.ok then
      Err(ApiError("Weather API error: " + response.statusText))
    else
      var data := response.body;
      match (data.current, data.daily)
      case (None, _) => Err(MalformedResponse("current"))
      case (Some(_), None) => Err(MalformedResponse("daily"))
      case (Some(current), Some(daily)) =>
        Ok(WeatherData(
          latitude := data.latitude,
          longitude := data.longitude,
          timezone := data.timezone,
          current := ReshapeCurrent(current),
          daily := ReshapeDaily(daily)))
  }

  /** Flattening a snapshot and fetching it back gives the same snapshot, so
      the reshape is onto: every snapshot is the image of exactly one body. */
  lemma FetchOfFlattened(w: WeatherData, statusText: string)
    ensures FetchWeatherData(HttpResponse(true, statusText, Flatten(w))) == Ok(w)
  {
  }

  /** Two ok responses whose bodies yield snapshots agree on the snapshot
      exactly when their bodies agree. */
  lemma FetchInjective(a: HttpResponse<ForecastPayload>, b: HttpResponse<ForecastPayload>)
    requires FetchWeatherData(a).Ok? && FetchWeatherData(b).Ok?
    ensures FetchWeatherData(a) == FetchWeatherData(b) <==> a.body == b.body
  {
  }

  // Geocoding

  datatype GeoResultPayload = GeoResultPayload(
    latitude: real,
    longitude: real,
    name: string,
    country: Option<string>,
    timezone: Option<string>)

  /** The `results` list is absent when the provider finds no match. */
  datatype GeocodingPayload = GeocodingPayload(results: Option<seq<GeoResultPayload>>)

  datatype LocationData = LocationData(
    latitude: real,
    longitude: real,
    name: string,
    country: string,
    timezone: string)

  /** JavaScript `v || fallback` for a string field that may be absent:
      absent and empty are both falsy. */
  function OrElse(v: Option<string>, fallback: string): string {
    if v.Some? && v.value != "" then v.value else fallback
  }

  /** Copies one match; a falsy country becomes "" and a falsy time zone
      becomes "UTC". */
  function NormaliseLocation(r: GeoResultPayload): (l: LocationData)
    ensures l.latitude == r.latitude && l.longitude == r.longitude && l.name == r.name
    ensures l.country == "" <==> (r.country == None || r.country == Some(""))
    ensures l.country != "" ==> r.country == Some(l.country)
    ensures l.timezone != ""
    ensures l.timezone == "UTC" <==> (r.timezone == None || r.timezone == Some("") || r.timezone == Some("UTC"))
    ensures l.timezone != "UTC" ==> r.timezone == Some(l.timezone)
  {
    LocationData(
      latitude := r.latitude,
      longitude := r.longitude,
      name := r.name,
      country := OrElse(r.country, ""),
      timezone := OrElse(r.timezone, "UTC"))
  }

  /** The `.map` over the matches: one location per match, in order. */
  function NormaliseLocations(rs: seq<GeoResultPayload>): (ls: seq<LocationData>)
    ensures |ls| == |rs|
    ensures forall i :: 0 <= i < |rs| ==> ls[i] == NormaliseLocation(rs[i])
  {
    if rs == [] then [] else [NormaliseLocation(rs[0])] + NormaliseLocations(rs[1..])
  }

  /** The matches a geocoding body holds; an absent list holds none. */
  function Matches(body: GeocodingPayload): seq<GeoResultPayload> {
    match body.results
    case None => []
    case Some(rs) => rs
  }

  /** The status check and normalisation of geocodeLocation. A non-ok status
      fails with the status text; otherwise the result lists one location
      per match, in the provider's order, and is empty when the list is
      absent or empty. */
  function GeocodeLocation(response: HttpResponse<GeocodingPayload>): (r: Result<seq<LocationData>>)
    ensures !response.ok ==> r == Err(ApiError("Geocoding API error: " + response.statusText))
    ensures r.Ok? <==> response.ok
    ensures r.Ok? ==> |r.value| == |Matches(response.body)|
    ensures r.Ok? ==> forall i :: 0 <= i < |r.value| ==>
              r.value[i] == NormaliseLocation(Matches(response.body)[i])
    ensures r.Ok? ==> (r.value == [] <==> Matches(response.body) == [])
  {
    if !response.ok then
      Err(ApiError("Geocoding API error: " + response.statusText))
    else
      var data := response.body;
      if data.results.None? || |data.results.value| == 0 then Ok([])
      else Ok(NormaliseLocations(data.results.value))
  }

  /** A location, written back as a match the provider could have sent. */
  function AsMatch(l: LocationData): GeoResultPayload {
    GeoResultPayload(l.latitude, l.longitude, l.name, Some(l.country), Some(l.timezone))
  }

  /** Normalisation is idempotent: a normalised location passes through it
      again unchanged, defaults included. */
  lemma NormaliseLocationIdempotent(r: GeoResultPayload)
    ensures NormaliseLocation(AsMatch(NormaliseLocation(r))) == NormaliseLocation(r)
  {
  }

  /** Every location an ok geocoding call yields has a time zone. */
  lemma GeocodedLocationsHaveTimezone(response: HttpResponse<GeocodingPayload>)
    requires GeocodeLocation(response).Ok?
    ensures forall l :: l in GeocodeLocation(response).value ==> l.timezone != ""
  {
    var ls := GeocodeLocation(response).value;
    forall l | l in ls
      ensures l.timezone != ""
    {
      var i :| 0 <= i < |ls| && ls[i] == l;
    }
  }
}
