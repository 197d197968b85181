/** The fetch orchestrator: a single process-wide cache slot with a
    one-minute lifetime in front of the geocode, forecast and map pipeline,
    and the two accessors the views call. */
module WeatherService {
  import opened Wrappers
  import opened JsRuntime
  import opened ForecastFormatter
  import opened OpenMeteoApi

  /** `CACHE_DURATION`, in milliseconds. */
  const CacheDuration: int := 60 * 1000

  /** The network side of the provider: for each request, the parsed
      response or the message of the error the request threw. */
  datatype Provider = Provider(
    geocode: string -> Result<GeoResponse, string>,
    forecast: (real, real) -> Result<WeatherResponse, string>)

  /** A request sent to the provider. */
  datatype Request = GeocodeRequest(city: string) | ForecastRequest(lat: real, lon: real)

  /** The value of the cache slot `{city, data, timestamp}`; `None` stands
      for `null`. */
  datatype Slot = Slot(city: Option<string>, data: Option<WeatherReport>, timestamp: int)

  /** The slot as the module starts. */
  const EmptySlot := Slot(None, None, 0)

  /** The hit test: the same city string, data present, and less than a
      minute elapsed since the slot was written. */
  predicate IsHit(s: Slot, city: string, now: int)
    ensures IsHit(s, city, now) ==> s.data.Some? && s.city == Some(city)
    ensures IsHit(s, city, now) && s.timestamp <= now ==> now < s.timestamp + CacheDuration
  {
    s.city == Some(city) && s.data.Some? && now - s.timestamp < CacheDuration
  }

  /** What a miss computes: geocode, then fetch at the location's
      coordinates, then map. Fails with the first step's error. */
  function FetchFresh(city: string, provider: Provider, mapNow: int, locale: Locale): (r: Result<WeatherReport, string>)
    ensures var loc := GetLocation(provider.geocode(city));
      && (loc.Failure? ==> r == Failure(loc.error))
      && (loc.Success? ==>
            var api := GetWeatherData(provider.forecast(loc.value.lat, loc.value.lon));
            && (api.Failure? ==> r == Failure(api.error))
            && (api.Success? ==> r == Success(MapOpenMeteoData(loc.value, api.value, mapNow, locale))))
  {
    match GetLocation(provider.geocode(city))
    case Failure(e) => Failure(e)
    case Success(location) =>
      match GetWeatherData(provider.forecast(location.lat, location.lon))
      case Failure(e) => Failure(e)
      case Success(apiData) => Success(MapOpenMeteoData(location, apiData, mapNow, locale))
  }

  /** The requests a miss sends, in order: the forecast request is sent only
      once the geocoding step has produced a location. */
  function MissRequests(city: string, provider: Provider): (r: seq<Request>)
    ensures 1 <= |r| <= 2 && r[0] == GeocodeRequest(city)
    ensures |r| == 2 <==> GetLocation(provider.geocode(city)).Success?
  {
    match GetLocation(provider.geocode(city))
    case Failure(_) => [GeocodeRequest(city)]
    case Success(location) => [GeocodeRequest(city), ForecastRequest(location.lat, location.lon)]
  }

  /** One call of `fetchCompleteData(city)` started at `now`, mapping at
      `mapNow`: the new slot and the call's outcome. */
  function Step(s: Slot, city: string, now: int, mapNow: int, provider: Provider, locale: Locale): (r: (Slot, Result<WeatherReport, string>))
    ensures r.1.Success? ==> r.0.city == Some(city) && r.0.data == Some(r.1.value)
    ensures r.1.Failure? ==> r.0 == s && r.1 == FetchFresh(city, provider, mapNow, locale)
    ensures r.0 == s || r.0.timestamp == now
  {
    if IsHit(s, city, now) then (s, Success(s.data.value))
    else
      var r := FetchFresh(city, provider, mapNow, locale);
      if r.Success? then (Slot(Some(city), Some(r.value), now), r) else (s, r)
  }

  /** The requests that call sends. */
  function StepRequests(s: Slot, city: string, now: int, provider: Provider): (r: seq<Request>)
    ensures r == [] <==> IsHit(s, city, now)
    ensures r != [] ==> r[0] == GeocodeRequest(city) && |r| <= 2
  {
    if IsHit(s, city, now) then [] else MissRequests(city, provider)
  }

  /** A hit returns the cached data, sends nothing and leaves the slot. */
  lemma HitServesCache(s: Slot, city: string, now: int, mapNow: int, provider: Provider, locale: Locale)
    requires IsHit(s, city, now)
    ensures Step(s, city, now, mapNow, provider, locale) == (s, Success(s.data.value))
    ensures StepRequests(s, city, now, provider) == []
  {
  }

  /** A miss that succeeds stores the requested string (not the geocoded
      name), the mapped data and the call's start time; a miss that fails
      leaves the slot exactly as it was. */
  lemma MissOutcome(s: Slot, city: string, now: int, mapNow: int, provider: Provider, locale: Locale)
    requires !IsHit(s, city, now)
    ensures var (s', r) := Step(s, city, now, mapNow, provider, locale);
      && r == FetchFresh(city, provider, mapNow, locale)
      && (r.Success? ==> s' == Slot(Some(city), Some(r.value), now))
      && (r.Failure? ==> s' == s)
      && StepRequests(s, city, now, provider) == MissRequests(city, provider)
  {
  }

  /** Whatever the slot held, a failed call leaves it unchanged. */
  lemma FailureKeepsSlot(s: Slot, city: string, now: int, mapNow: int, provider: Provider, locale: Locale)
    requires Step(s, city, now, mapNow, provider, locale).1.Failure?
    ensures Step(s, city, now, mapNow, provider, locale).0 == s
  {
  }

  /** The first call always misses. */
  lemma FirstCallMisses(city: string, now: int)
    ensures !IsHit(EmptySlot, city, now)
  {
  }

  /** City keys are compared as exact strings, and at exactly a minute the
      entry has expired. */
  lemma KeyAndExpiry(data: WeatherReport)
    ensures !IsHit(Slot(Some("Paris"), Some(data), 0), "paris", 0)
    ensures IsHit(Slot(Some("Paris"), Some(data), 0), "Paris", 59999)
    ensures !IsHit(Slot(Some("Paris"), Some(data), 0), "Paris", 60000)
  {
  }

  /** After a successful call for one city, a call for another city misses
      whatever the time, and if it succeeds it replaces the slot. */
  lemma OtherCityReplaces(s: Slot, a: string, b: string, now1: int, now2: int, mapNow1: int, mapNow2: int,
                          provider: Provider, locale: Locale)
    requires a != b
    requires Step(s, a, now1, mapNow1, provider, locale).1.Success?
    ensures var s1 := Step(s, a, now1, mapNow1, provider, locale).0;
      && !IsHit(s1, b, now2)
      && var (s2, r2) := Step(s1, b, now2, mapNow2, provider, locale);
      && (r2.Success? ==> s2.city == Some(b) && s2.data == Some(r2.value))
  {
  }

  /** A hit does not renew the entry: a slot written at 0 serves a call at
      59999 from the cache, and a call at 60000, one millisecond later,
      misses and fetches again. */
  lemma HitThenMissNearExpiry(city: string, data: WeatherReport, mapNow: int, provider: Provider, locale: Locale)
    ensures var s := Slot(Some(city), Some(data), 0);
      && Step(s, city, 59999, mapNow, provider, locale) == (s, Success(data))
      && StepRequests(s, city, 59999, provider) == []
      && !IsHit(s, city, 60000)
      && Step(s, city, 60000, mapNow, provider, locale).1 == FetchFresh(city, provider, mapNow, locale)
      && StepRequests(s, city, 60000, provider) == MissRequests(city, provider)
  {
  }

  /** A sequence of `fetchCompleteData` calls, each with the city and the
      two clock readings it sees. */
  datatype Call = Call(city: string, now: int, mapNow: int)

  /** The slot after a run of calls, the outcomes and every request sent. */
  function Run(s: Slot, calls: seq<Call>, provider: Provider, locale: Locale): (Slot, seq<Result<WeatherReport, string>>, seq<Request>)
    decreases |calls|
  {
    if calls == [] then (s, [], [])
    else
      var c := calls[0];
      var (s1, r1) := Step(s, c.city, c.now, c.mapNow, provider, locale);
      var (sn, rs, reqs) := Run(s1, calls[1..], provider, locale);
      (sn, [r1] + rs, StepRequests(s, c.city, c.now, provider) + reqs)
  }

  /** While the slot holds data for a city, any number of calls for that
      city within its minute send nothing, all return the cached data and
      leave the slot alone. */
  lemma {:induction false} NoRequestsWithinTtl(s: Slot, city: string, calls: seq<Call>, provider: Provider, locale: Locale)
    requires s.city == Some(city) && s.data.Some?
    requires forall i :: 0 <= i < |calls| ==> calls[i].city == city && calls[i].now - s.timestamp < CacheDuration
    ensures var (sn, rs, reqs) := Run(s, calls, provider, locale);
      && sn == s && reqs == []
      && |rs| == |calls| && forall i :: 0 <= i < |rs| ==> rs[i] == Success(s.data.value)
  {
    if calls != [] {
      NoRequestsWithinTtl(s, city, calls[1..], provider, locale);
    }
  }

  /** At most one fetch per minute: when the first of a run of calls for one
      city misses and succeeds, the whole run sends exactly that miss's two
      requests, provided every later call starts less than a minute after
      the first; all calls return the same data. */
  lemma OneFetchPerTtlWindow(s: Slot, city: string, calls: seq<Call>, provider: Provider, locale: Locale)
    requires |calls| >= 1
    requires forall i :: 0 <= i < |calls| ==> calls[i].city == city
    requires forall i :: 0 <= i < |calls| ==> calls[i].now - calls[0].now < CacheDuration
    requires !IsHit(s, city, calls[0].now)
    requires FetchFresh(city, provider, calls[0].mapNow, locale).Success?
    ensures var (sn, rs, reqs) := Run(s, calls, provider, locale);
      && |reqs| == 2 && reqs == MissRequests(city, provider)
      && |rs| == |calls| && forall i :: 0 <= i < |rs| ==> rs[i] == rs[0] && rs[0].Success?
  {
    var c := calls[0];
    var (s1, r1) := Step(s, c.city, c.now, c.mapNow, provider, locale);
    assert s1.timestamp == c.now;
    forall i | 0 <= i < |calls[1..]|
      ensures calls[1..][i].city == city && calls[1..][i].now - s1.timestamp < CacheDuration
    {
      assert calls[1..][i] == calls[i + 1];
    }
    NoRequestsWithinTtl(s1, city, calls[1..], provider, locale);
  }

  /** The cache slot `weatherCache` and the functions that use it. The
      ghost `requests` records what was sent to the provider. */
  class WeatherCache {
    var city: Option<string>
    var data: Option<WeatherReport>
    var timestamp: int
    ghost var requests: seq<Request>

    /** The slot's value. */
    function Value(): Slot
      reads this
    {
      Slot(city, data, timestamp)
    }

    /** `{city: null, data: null, timestamp: 0}`. */
    constructor ()
      ensures Value() == EmptySlot && requests == []
    {
      city, data, timestamp := None, None, 0;
      requests := [];
    }

    /** `fetchCompleteData(city)`: `now` is `Date.now()` at the call's
        start, `mapNow` the clock the mapper reads. */
    method FetchCompleteData(city: string, now: int, mapNow: int, provider: Provider, locale: Locale)
      returns (r: Result<WeatherReport, string>)
      modifies this
      ensures (Value(), r) == Step(old(Value()), city, now, mapNow, provider, locale)
      ensures requests == old(requests) + StepRequests(old(Value()), city, now, provider)
      ensures old(IsHit(Value(), city, now)) ==> r == Success(old(data).value) && Value() == old(Value())
      ensures !old(IsHit(Value(), city, now)) && r.Success? ==> Value() == Slot(Some(city), Some(r.value), now)
      ensures r.Failure? ==> Value() == old(Value())
    {
      if this.city == Some(city) && data.Some? && now - timestamp < CacheDuration {
        return Success(data.value);
      }

      // 1. Coordinates
      requests := requests + [GeocodeRequest(city)];
      var location := GetLocation(provider.geocode(city));
      if location.Failure? {
        return Failure(location.error);
      }

      // 2. Weather data
      requests := requests + [ForecastRequest(location.value.lat, location.value.lon)];
      var apiData := GetWeatherData(provider.forecast(location.value.lat, location.value.lon));
      if apiData.Failure? {
        return Failure(apiData.error);
      }

      // 3. Mapping
      var formattedData := MapOpenMeteoData(location.value, apiData.value, mapNow, locale);

      this.city, data, timestamp := Some(city), Some(formattedData), now;
      r := Success(formattedData);
    }

    /** `getWeather(city)`: the current conditions of the composite. */
    method GetWeather(city: string, now: int, mapNow: int, provider: Provider, locale: Locale)
      returns (r: Result<CurrentWeather, string>)
      modifies this
      ensures var (s, full) := Step(old(Value()), city, now, mapNow, provider, locale);
        && Value() == s
        && (full.Success? ==> r == Success(full.value.current))
        && (full.Failure? ==> r == Failure(full.error))
      ensures requests == old(requests) + StepRequests(old(Value()), city, now, provider)
    {
      var full := FetchCompleteData(city, now, mapNow, provider, locale);
      r := if full.Success? then Success(full.value.current) else Failure(full.error);
    }

    /** `getForecast(city)`: the daily forecast of the composite. */
    method GetForecast(city: string, now: int, mapNow: int, provider: Provider, locale: Locale)
      returns (r: Result<seq<ForecastDay>, string>)
      modifies this
      ensures var (s, full) := Step(old(Value()), city, now, mapNow, provider, locale);
        && Value() == s
        && (full.Success? ==> r == Success(full.value.forecast))
        && (full.Failure? ==> r == Failure(full.error))
      ensures requests == old(requests) + StepRequests(old(Value()), city, now, provider)
    {
      var full := FetchCompleteData(city, now, mapNow, provider, locale);
      r := if full.Success? then Success(full.value.forecast) else Failure(full.error);
    }
  }

  /** The views' call pattern: `getWeather(city)`, then, if it did not
      throw, `getForecast(city)`. The pair sends at most one miss's worth of
      requests. When the first call misses and succeeds and the second
      starts less than a minute later, the second is served from the cache,
      so both parts come from the same composite. (When the first call is a
      hit on an entry close to its expiry, the second may miss.) */
  method CurrentThenForecast(cache: WeatherCache, city: string, now1: int, now2: int,
                             mapNow1: int, mapNow2: int, provider: Provider, locale: Locale)
    returns (current: Result<CurrentWeather, string>, forecast: Result<seq<ForecastDay>, string>)
    requires now1 <= now2 < now1 + CacheDuration
    modifies cache
    ensures |cache.requests| <= |old(cache.requests)| + 2
    ensures current.Failure? ==>
              && !old(IsHit(cache.Value(), city, now1))
              && FetchFresh(city, provider, mapNow1, locale) == Failure(current.error)
              && forecast == Failure(current.error)
              && cache.Value() == old(cache.Value())
              && cache.requests == old(cache.requests) + MissRequests(city, provider)
    ensures !old(IsHit(cache.Value(), city, now1)) && current.Success? ==>
              && forecast.Success? && cache.data.Some?
              && FetchFresh(city, provider, mapNow1, locale) == Success(cache.data.value)
              && current.value == cache.data.value.current
              && forecast.value == cache.data.value.forecast
              && cache.Value() == Slot(Some(city), cache.data, now1)
              && cache.requests == old(cache.requests) + MissRequests(city, provider)
    ensures old(IsHit(cache.Value(), city, now1)) ==>
              && current == Success(old(cache.data).value.current)
              && var (s2, full2) := Step(old(cache.Value()), city, now2, mapNow2, provider, locale);
              && cache.Value() == s2
              && (full2.Success? ==> forecast == Success(full2.value.forecast))
              && (full2.Failure? ==> forecast == Failure(full2.error))
              && cache.requests == old(cache.requests) + StepRequests(old(cache.Value()), city, now2, provider)
  {
    ghost var firstHit := IsHit(cache.Value(), city, now1);
    current := cache.GetWeather(city, now1, mapNow1, provider, locale);
    if current.Failure? {
      forecast := Failure(current.error);
      return;
    }
    ghost var afterFirst := cache.requests;
    forecast := cache.GetForecast(city, now2, mapNow2, provider, locale);
    if !firstHit {
      assert IsHit(cache.Value(), city, now2);
      assert cache.requests == afterFirst;
    }
  }
}
