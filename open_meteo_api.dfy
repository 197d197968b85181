/** The Open-Meteo client: the checks applied to the geocoding and forecast
    responses once they are parsed, and the mapping of a forecast payload
    into the dashboard's current conditions, hourly trend and daily
    forecast. The HTTP requests themselves are not modelled: the parsed
    response (or the error the request threw) is an input. */
module OpenMeteoApi {
  import opened Wrappers
  import opened JsRuntime
  import opened ForecastFormatter

  /** One entry of the geocoding response's `results`. */
  datatype GeoResult = GeoResult(name: string, latitude: real, longitude: real, countryCode: string)

  /** The parsed geocoding response; `results` may be absent. */
  datatype GeoResponse = GeoResponse(results: Option<seq<GeoResult>>)

  /** What `getLocation` resolves to. */
  datatype Location = Location(name: string, lat: real, lon: real, country: string)

  const CityNotFound := "City not found"
  const WeatherFetchFailed := "Weather data fetch failed"

  /** `getLocation(city)` after the request: an error thrown by the request
      or the JSON parse is rethrown; no result fails with 'City not found';
      otherwise the first result is used. */
  function GetLocation(fetched: Result<GeoResponse, string>): (r: Result<Location, string>)
    ensures fetched.Failure? ==> r == Failure(fetched.error)
    ensures fetched.Success? ==>
              (r.Failure? <==> fetched.value.results.None? || |fetched.value.results.value| == 0)
    ensures fetched.Success? && r.Failure? ==> r.error == CityNotFound
    ensures r.Success? ==>
              var g := fetched.value.results.value[0];
              r.value.name == g.name && r.value.lat == g.latitude
              && r.value.lon == g.longitude && r.value.country == g.countryCode
  {
    match fetched
    case Failure(e) => Failure(e)
    case Success(data) =>
      if data.results.None? || |data.results.value| == 0 then Failure(CityNotFound)
      else
        var g := data.results.value[0];
        Success(Location(g.name, g.latitude, g.longitude, g.countryCode))
  }

  /** The `current_weather` block. */
  datatype CurrentBlock = CurrentBlock(
    temperature: real,
    windSpeed: real,      // windspeed
    weatherCode: int,     // weathercode
    isDay: int)           // is_day, 1 by day and 0 by night

  /** The `hourly` block: instants (already parsed to milliseconds) and the
      arrays aligned with them. */
  datatype HourlyBlock = HourlyBlock(
    time: seq<int>,
    temperature: seq<JsNum>,           // temperature_2m
    humidity: seq<JsNum>,              // relativehumidity_2m
    pressure: seq<JsNum>,              // surface_pressure
    visibility: seq<JsNum>,            // visibility, in metres
    apparentTemperature: seq<JsNum>)   // apparent_temperature

  /** A forecast payload without an error flag. */
  datatype WeatherPayload = WeatherPayload(
    current: CurrentBlock,
    hourly: HourlyBlock,
    daily: Option<DailyBlock>,
    timezone: string)

  /** The parsed forecast response: either `error` is set, with an optional
      `reason`, or it is a payload. */
  datatype WeatherResponse = ErrorResponse(reason: Option<string>) | PayloadResponse(payload: WeatherPayload)

  /** `getWeatherData(lat, lon)` after the request: an error thrown by the
      request is rethrown; an error payload fails with its `reason`, or with
      'Weather data fetch failed' when the reason is missing or empty; any
      other payload is returned unchanged. */
  function GetWeatherData(fetched: Result<WeatherResponse, string>): (r: Result<WeatherPayload, string>)
    ensures fetched.Failure? ==> r == Failure(fetched.error)
    ensures fetched.Success? && fetched.value.PayloadResponse? ==> r == Success(fetched.value.payload)
    ensures fetched.Success? && fetched.value.ErrorResponse? ==>
              var reason := fetched.value.reason;
              r.Failure? && r.error == (if reason.Some? && reason.value != "" then reason.value else WeatherFetchFailed)
  {
    match fetched
    case Failure(e) => Failure(e)
    case Success(ErrorResponse(reason)) =>
      Failure(if reason.Some? && reason.value != "" then reason.value else WeatherFetchFailed)
    case Success(PayloadResponse(p)) => Success(p)
  }

  /** The normalised current conditions. */
  datatype CurrentWeather = CurrentWeather(
    city: string,
    country: string,
    temp: real,
    condition: string,
    icon: string,
    description: string,
    humidity: real,
    wind: real,
    pressure: real,
    visibility: real,   // kilometres
    feelsLike: real,
    dt: real,           // seconds since the epoch
    weatherCode: int,
    isDay: bool)

  /** One point of the hourly trend. */
  datatype HourlyPoint = HourlyPoint(time: string, temp: JsNum)

  /** What `mapOpenMeteoData` returns. */
  datatype WeatherReport = WeatherReport(current: CurrentWeather, forecast: seq<ForecastDay>, hourly: seq<HourlyPoint>)

  const TrendLength := 24
  const DefaultHumidity := 0.0
  const DefaultPressure := 1013.0
  const DefaultVisibilityKm := 10.0

  /** `time.findIndex(t => new Date(t) >= now) || 0`. The `|| 0` replaces
      only a 0, which is already the value it would give, so a search that
      finds nothing leaves -1. */
  function CurrentHourIndex(time: seq<int>, now: int): (k: int)
    ensures -1 <= k < |time|
    ensures k == -1 <==> forall j :: 0 <= j < |time| ==> time[j] < now
    ensures 0 <= k ==> now <= time[k] && forall j :: 0 <= j < k ==> time[j] < now
  {
    OrInt(FindIndexAtOrAfter(time, now), 0)
  }

  /** The hourly trend: `time.slice(k, k + 24)`, each instant paired with
      the temperature at `k + i`, where `i` is its place in the slice. */
  function HourlyTrend(h: HourlyBlock, k: int, locale: Locale): (r: seq<HourlyPoint>)
    ensures 0 <= k <= |h.time| ==>
              |r| == Min(TrendLength, |h.time| - k)
              && forall i :: 0 <= i < |r| ==>
                   r[i] == HourlyPoint(locale.hourLabel(h.time[k + i]), NumAt(h.temperature, k + i))
    ensures k == -1 && (|h.time| == 0 || |h.time| >= TrendLength) ==> r == []
    ensures k == -1 && 0 < |h.time| < TrendLength ==>
              r == [HourlyPoint(locale.hourLabel(h.time[|h.time| - 1]), Undefined)]
  {
    var window := Slice(h.time, k, k + TrendLength);
    seq(|window|, i requires 0 <= i < |window| =>
      HourlyPoint(locale.hourLabel(window[i]), NumAt(h.temperature, k + i)))
  }

  /** `mapOpenMeteoData(location, apiData)`; `now` is the clock, in
      milliseconds, read while mapping. */
  function MapOpenMeteoData(location: Location, api: WeatherPayload, now: int, locale: Locale): (r: WeatherReport)
    ensures r.current.city == location.name && r.current.country == location.country
    ensures r.current.temp == api.current.temperature && r.current.wind == api.current.windSpeed
    ensures r.current.weatherCode == api.current.weatherCode
    ensures r.current.condition == r.current.description == GetByWmoCode(api.current.weatherCode).description
    ensures r.current.icon == GetByWmoCode(api.current.weatherCode).icon
    ensures r.current.isDay <==> api.current.isDay == 1
    ensures r.current.dt == now as real / 1000.0
    ensures var h := api.hourly; var k := CurrentHourIndex(h.time, now);
      && r.current.humidity == OrNum(NumAt(h.humidity, k), DefaultHumidity)
      && r.current.pressure == OrNum(NumAt(h.pressure, k), DefaultPressure)
      && r.current.visibility == OrNum(DivBy(NumAt(h.visibility, k), 1000.0), DefaultVisibilityKm)
      && r.current.feelsLike == OrNum(NumAt(h.apparentTemperature, k), api.current.temperature)
      && r.hourly == HourlyTrend(h, k, locale)
    ensures r.forecast == FormatDailyForecast(api.daily, api.timezone, locale)
  {
    var cw := api.current;
    var info := GetByWmoCode(cw.weatherCode);
    var h := api.hourly;
    var k := CurrentHourIndex(h.time, now);
    var current := CurrentWeather(
      city := location.name,
      country := location.country,
      temp := cw.temperature,
      condition := info.description,
      icon := info.icon,
      description := info.description,
      humidity := OrNum(NumAt(h.humidity, k), DefaultHumidity),
      wind := cw.windSpeed,
      pressure := OrNum(NumAt(h.pressure, k), DefaultPressure),
      visibility := OrNum(DivBy(NumAt(h.visibility, k), 1000.0), DefaultVisibilityKm),
      feelsLike := OrNum(NumAt(h.apparentTemperature, k), cw.temperature),
      dt := now as real / 1000.0,
      weatherCode := cw.weatherCode,
      isDay := cw.isDay == 1);
    WeatherReport(current, FormatDailyForecast(api.daily, api.timezone, locale), HourlyTrend(h, k, locale))
  }

  /** When every hourly instant lies before `now` (an empty array included)
      no hour is selected: all four readings take their defaults, and the
      trend of a full week of hours is empty. */
  lemma NoCurrentHour(location: Location, api: WeatherPayload, now: int, locale: Locale)
    requires forall j :: 0 <= j < |api.hourly.time| ==> api.hourly.time[j] < now
    ensures var r := MapOpenMeteoData(location, api, now, locale);
      && r.current.humidity == 0.0
      && r.current.pressure == 1013.0
      && r.current.visibility == 10.0
      && r.current.feelsLike == api.current.temperature
      && (|api.hourly.time| >= 24 ==> r.hourly == [])
  {
  }

  /** When an hour at or after `now` exists, the readings come from the
      first such hour: a non-zero number is used as is (visibility converted
      from metres to kilometres), and zero, `null`, `undefined` or `NaN`
      give the default. */
  lemma ReadingsAtCurrentHour(location: Location, api: WeatherPayload, now: int, locale: Locale, k: nat)
    requires k < |api.hourly.time| && now <= api.hourly.time[k]
    requires forall j :: 0 <= j < k ==> api.hourly.time[j] < now
    ensures var r := MapOpenMeteoData(location, api, now, locale); var h := api.hourly;
      && (Truthy(NumAt(h.humidity, k)) ==> r.current.humidity == h.humidity[k].v)
      && (!Truthy(NumAt(h.humidity, k)) ==> r.current.humidity == 0.0)
      && (Truthy(NumAt(h.pressure, k)) ==> r.current.pressure == h.pressure[k].v)
      && (!Truthy(NumAt(h.pressure, k)) ==> r.current.pressure == 1013.0)
      && (Truthy(NumAt(h.visibility, k)) ==> r.current.visibility == h.visibility[k].v / 1000.0)
      && (!Truthy(NumAt(h.visibility, k)) ==> r.current.visibility == 10.0)
      && (Truthy(NumAt(h.apparentTemperature, k)) ==> r.current.feelsLike == h.apparentTemperature[k].v)
      && (!Truthy(NumAt(h.apparentTemperature, k)) ==> r.current.feelsLike == api.current.temperature)
      && |r.hourly| == Min(24, |h.time| - k)
      && (forall i :: 0 <= i < |r.hourly| ==> r.hourly[i].temp == NumAt(h.temperature, k + i))
  {
  }

  /** A 48-hour block whose current hour is position 10 gives a full
      24-point trend starting with the temperature at position 10. */
  lemma TrendFromHourTen(h: HourlyBlock, locale: Locale)
    requires |h.time| == 48
    ensures var r := HourlyTrend(h, 10, locale);
      |r| == 24 && r[0].temp == NumAt(h.temperature, 10)
  {
  }

  /** The worked example: London, overcast by day at 15 degrees. */
  lemma LondonOvercast(api: WeatherPayload, now: int, locale: Locale)
    requires api.current == CurrentBlock(15.0, 10.0, 3, 1)
    ensures var loc := GetLocation(Success(GeoResponse(Some([GeoResult("London", 51.5, -0.12, "GB")]))));
      && loc == Success(Location("London", 51.5, -0.12, "GB"))
      && var r := MapOpenMeteoData(loc.value, api, now, locale);
      && r.current.condition == "Overcast" && r.current.icon == "04d"
      && r.current.weatherCode == 3 && r.current.isDay && r.current.temp == 15.0
      && r.current.city == "London" && r.current.country == "GB"
  {
  }
}
