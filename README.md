# Weather dashboard data pipeline, in Dafny

This project models the data side of a browser weather dashboard that reads
the Open-Meteo geocoding and forecast APIs. The model covers:

- **Code table** (`ForecastFormatter.GetByWmoCode`). WMO 4677 present-weather
  codes map to a description and an icon, with the fallback
  `{Unknown, 03d}` for any other code.
- **Visual classifier** (`WeatherVisualMapper.GetWeatherVisual`). A code and
  a day/night flag map to one of the ten animation categories.
- **Daily forecast normaliser** (`ForecastFormatter.FormatDailyForecast`). It
  reads positions 1..5 of the daily block, drops days without a date and
  averages the two temperatures.
- **Mapper** (`OpenMeteoApi.MapOpenMeteoData`). It picks the current hour,
  reads humidity, pressure, visibility and apparent temperature there with
  their `||` defaults, and slices the 24-hour trend.
- **Response checks** of `getLocation` and `getWeatherData`.
- **Single-slot cache** (`WeatherService.WeatherCache`), with a lifetime of
  one minute, and the accessors `getWeather` and `getForecast`.
- **Display helpers** `formatTemp` and the seconds/milliseconds guess of the
  date formatters.

JavaScript values are modelled explicitly (module `JsRuntime`):

- A number read from JSON is `Num(v)`, `Null`, `Undefined` or `NaN`.
- Truthiness, `||`, `+` (where `null` counts as 0), division, out-of-range
  reads, `findIndex` and `slice` follow the language.
- Date parsing and `Intl` formatting are the fields of a `Locale` value.
  The model does not interpret them.

The cache is a class with `city`, `data` and `timestamp` fields. Its method
is proved against the pure step function `WeatherService.Step` over slot
values. A ghost log records the requests sent to the provider.

Two behaviours of the code are worth stating outright:

- **No current hour.** `findIndex(...) || 0`
  (src/services/openMeteoApi.js:82) keeps -1 when no hourly instant is at
  or after now, because `findIndex` returns -1 when it finds nothing and
  `|| 0` replaces only 0. All four readings then take their defaults
  (`OpenMeteoApi.NoCurrentHour`), and the trend is `slice(-1, 23)`:
  - with 24 or more hours it is empty;
  - with 1 to 23 hours it is a single point for the last hour, whose
    temperature is `undefined`.
- **A hit close to expiry.** A `getWeather` that hits an entry close to
  expiry can be followed by a `getForecast` that misses
  (`WeatherService.HitThenMissNearExpiry`). After a `getWeather` that
  misses and succeeds, a `getForecast` that starts less than a minute
  after the first call started is always a hit
  (`WeatherService.CurrentThenForecast`).

## Model

| member | source | states |
|---|---|---|
| `JsRuntime.FindIndexAtOrAfter` | src/services/openMeteoApi.js:82 | -1 exactly when every hourly instant is before `now`; otherwise the first position whose instant is at or after `now` |
| `JsRuntime.OrInt` | src/services/openMeteoApi.js:82 | the logical-or default on an integer replaces only 0 |
| `JsRuntime.OrNum` | src/services/openMeteoApi.js:97-101 | the logical-or default gives the value when it is a non-zero number, else the default (0, null, undefined and NaN are falsy) |
| `JsRuntime.Plus` | src/utils/forecastFormatter.js:79 | `+` adds two numbers; null counts as 0 on either side (null + null is 0, null + n is n); undefined or NaN on either side gives NaN |
| `JsRuntime.DivBy` | src/services/openMeteoApi.js:87 | division by a non-zero constant keeps truthiness and divides a number |
| `JsRuntime.NumAt` | src/services/openMeteoApi.js:85-88 | an array read outside the array, including index -1, is undefined |
| `JsRuntime.Get` | src/utils/forecastFormatter.js:55-60 | an array read gives the element exactly when the index is in range |
| `JsRuntime.RelativeIndex` | src/services/openMeteoApi.js:113 | a slice bound counts from the end when negative and is clamped to the array |
| `JsRuntime.Slice` | src/services/openMeteoApi.js:112-113 | `slice(start, end)` has length `to - from` (or 0) for the resolved bounds, and element j is `s[from + j]` |
| `WeatherVisualMapper.GetWeatherVisual` | src/utils/weatherVisualMapper.js:25-68 | 0 and 1 give clear day/night and 2 gives partly cloudy day/night, by `isDay`; 3 gives cloudy; the fog, drizzle, rain, snow and thunder groups give their category; any other code falls back to partly cloudy day/night; the result is one of the ten `VISUALS` strings |
| `WeatherVisualMapper.GetWeatherVisualWithDefault` | src/utils/weatherVisualMapper.js:25 | an omitted `isDay` behaves as `true` |
| `WeatherVisualMapper.KeysDistinct` | src/utils/weatherVisualMapper.js:6-17 | the ten enumeration strings are pairwise distinct and are exactly the listed ones |
| `WeatherVisualMapper.DayMattersIff` | src/utils/weatherVisualMapper.js:27-67 | day and night give the same category if and only if the code is 3 or in one of the five precipitation/fog groups |
| `WeatherVisualMapper.DayNeverNight` | src/utils/weatherVisualMapper.js:27-67 | a daytime call never yields a night category, and a night call never yields a day category |
| `WeatherVisualMapper.Samples` | src/utils/weatherVisualMapper.js:25-68 | 0 by day is clear-day, by night clear-night; 61 is rain; 999 is partly cloudy by day or night; 3 by night is cloudy |
| `ForecastFormatter.GetByWmoCode` | src/utils/forecastFormatter.js:10-35 | a listed code gives its table entry; the result is the fallback `{Unknown, 03d}` (and the description is 'Unknown') if and only if the code is unlisted; the icon is one of nine |
| `ForecastFormatter.GetByReadCode` | src/utils/forecastFormatter.js:60-72 | an undefined code read gives the fallback |
| `ForecastFormatter.DayAt` | src/utils/forecastFormatter.js:57-86 | date, min, max and code all come from the same position; the average is the mean of min and max and lies between them, is half the other value when one is null, 0 when both are null, and NaN when either is missing or NaN; condition and icon are the table's entry for that code; the day label and the epoch seconds come from that position's date |
| `ForecastFormatter.Candidates` | src/utils/forecastFormatter.js:53-55 | mapping over the positions gives one entry per position, the j-th being the callback's value at the j-th position (null without a date) |
| `ForecastFormatter.Compact` | src/utils/forecastFormatter.js:87 | dropping the nulls never lengthens the list, keeps only values that were present, keeps every present value, and changes nothing when no entry is null |
| `ForecastFormatter.CompactAppend` | src/utils/forecastFormatter.js:87 | filtering a concatenation filters each part in place, so order and repetitions are kept |
| `ForecastFormatter.CompactSingle` | src/utils/forecastFormatter.js:87 | a single present value is kept and a single null is dropped |
| `ForecastFormatter.DatedIndices` | src/utils/forecastFormatter.js:51-55 | a position is kept if and only if it is visited and its `time` entry is present and non-empty |
| `ForecastFormatter.FormatDailyForecast` | src/utils/forecastFormatter.js:43-91 | a missing block or `time` gives the empty list; otherwise the result has at most 5 entries, and entry j is the day at the j-th dated position among 1..5 |
| `ForecastFormatter.CompactCandidates` | src/utils/forecastFormatter.js:53-87 | map-then-filter equals the days at the dated positions, in order |
| `ForecastFormatter.DatedIndicesIncreasing` | src/utils/forecastFormatter.js:51-87 | filtering keeps the positions strictly increasing |
| `ForecastFormatter.WindowAndOrder` | src/utils/forecastFormatter.js:49-55 | the positions used are strictly increasing, all within 1..5 (never 0), and are exactly the dated ones |
| `ForecastFormatter.AllDated` | src/utils/forecastFormatter.js:55 | when every visited position has a date, none is dropped |
| `ForecastFormatter.FiveFullDays` | src/utils/forecastFormatter.js:51-87 | a block with dates at positions 1..5 gives exactly 5 days, the j-th from position j + 1 |
| `ForecastFormatter.IgnoresToday` | src/utils/forecastFormatter.js:49-53 | position 0 of every array never affects the result |
| `ForecastFormatter.DatedIndicesAgree` | src/utils/forecastFormatter.js:55 | `time` arrays that agree on the visited positions select the same positions |
| `ForecastFormatter.TimezoneUnused` | src/utils/forecastFormatter.js:43 | the `timezone` argument does not change the result |
| `ForecastFormatter.TableSamples` | src/utils/forecastFormatter.js:11-34 | 3 is `{Overcast, 04d}`, 0 is `{Clear Sky, 01d}`, 99 is `{Thunderstorm with Heavy Hail, 11d}`, 77 is unknown |
| `OpenMeteoApi.GetLocation` | src/services/openMeteoApi.js:20-40 | a request error is rethrown; missing or empty results fail with 'City not found'; otherwise the first result's name, latitude, longitude and country code are returned |
| `OpenMeteoApi.GetWeatherData` | src/services/openMeteoApi.js:48-72 | a request error is rethrown; an error payload fails with its non-empty reason or 'Weather data fetch failed'; any other payload is returned unchanged |
| `OpenMeteoApi.CurrentHourIndex` | src/services/openMeteoApi.js:82 | -1 if and only if no hourly instant is at or after `now` (the empty array included); otherwise the first such position |
| `OpenMeteoApi.HourlyTrend` | src/services/openMeteoApi.js:112-119 | for a position k ≥ 0 the trend has `min(24, len - k)` points and point i is the label of hour k + i with the temperature at k + i; at -1 it is empty for 0 or at least 24 hours, and otherwise a single point for the last hour with an undefined temperature |
| `OpenMeteoApi.MapOpenMeteoData` | src/services/openMeteoApi.js:74-126 | city and country come from the location; condition and description are the table description of the current code; `isDay` holds if and only if `is_day` is 1; the four readings at the current hour use the defaults 0, 1013, 10 and the current temperature, with visibility converted from metres to kilometres first; `dt` is the clock in seconds; the forecast is the daily normaliser's result |
| `OpenMeteoApi.NoCurrentHour` | src/services/openMeteoApi.js:82-101 | with every instant in the past, the readings are 0, 1013, 10 and the current temperature, and a trend over 24 or more hours is empty |
| `OpenMeteoApi.ReadingsAtCurrentHour` | src/services/openMeteoApi.js:82-119 | at the first hour not before `now`, a non-zero reading is used (visibility divided by 1000), while zero, null, undefined or NaN gives the default; the trend has `min(24, len - k)` points with temperatures from k onwards |
| `OpenMeteoApi.TrendFromHourTen` | src/services/openMeteoApi.js:112-119 | 48 hours starting at position 10 give 24 points, the first with the temperature at 10 |
| `OpenMeteoApi.LondonOvercast` | src/services/openMeteoApi.js:25-105 | geocoding London then mapping code 3 by day gives Overcast, icon 04d, code 3, daytime, 15 degrees, city London, country GB |
| `WeatherService.FetchFresh` | src/services/weatherService.js:21-28 | geocode, then fetch at the location's coordinates, then map, failing with the first failing step's error |
| `WeatherService.MissRequests` | src/services/weatherService.js:21-25 | a miss sends the geocoding request first, and the forecast request if and only if geocoding produced a location |
| `WeatherService.IsHit` | src/services/weatherService.js:17 | a hit needs the same city string and data present, and an entry written at or before `now` hits only while less than 60000 ms have passed since the write |
| `WeatherService.Step` | src/services/weatherService.js:13-38 | one call: after a success the slot holds the requested city and the returned data; a failure is the fetch's error and leaves the slot; the slot either stays or is stamped with the call's start time |
| `WeatherService.StepRequests` | src/services/weatherService.js:13-25 | a call sends nothing exactly when it hits, and otherwise the geocoding request first and at most two requests |
| `WeatherService.HitServesCache` | src/services/weatherService.js:17-19 | a hit returns the cached data, sends no request and leaves the slot |
| `WeatherService.MissOutcome` | src/services/weatherService.js:21-37 | a successful miss stores the requested city string, the mapped data and the start time; a failed miss leaves the slot as it was |
| `WeatherService.FailureKeepsSlot` | src/services/weatherService.js:21-35 | a failed call never changes the slot |
| `WeatherService.FirstCallMisses` | src/services/weatherService.js:5-17 | the initial slot `{null, null, 0}` never hits |
| `WeatherService.KeyAndExpiry` | src/services/weatherService.js:11-17 | 'Paris' and 'paris' are different keys; 59999 ms after the write is a hit and 60000 ms is a miss |
| `WeatherService.OtherCityReplaces` | src/services/weatherService.js:17-35 | after a success for one city, a call for another city misses at any time, and on success it replaces the slot |
| `WeatherService.HitThenMissNearExpiry` | src/services/weatherService.js:17 | a hit does not renew the entry: written at 0, a call at 59999 is served from the cache and sends nothing, and a call at 60000 misses and fetches again |
| `WeatherService.NoRequestsWithinTtl` | src/services/weatherService.js:13-19 | any run of calls for the cached city within its minute sends nothing, returns the cached data every time and keeps the slot |
| `WeatherService.OneFetchPerTtlWindow` | src/services/weatherService.js:13-37 | a run of calls for one city that starts with a successful miss, and whose calls all start within a minute of the first, sends exactly the two requests of that miss, and every call returns the same data |
| `WeatherService.WeatherCache.constructor` | src/services/weatherService.js:5-9 | the slot starts as `{null, null, 0}` and no request has been sent |
| `WeatherService.WeatherCache.FetchCompleteData` | src/services/weatherService.js:13-38 | the new slot and the result are those of `Step`, and the requests sent are those of `StepRequests`; a hit returns the old data unchanged; a successful miss writes the city, data and start time; a failure leaves the slot |
| `WeatherService.WeatherCache.GetWeather` | src/services/weatherService.js:41-44 | the current-conditions part of the same cache step |
| `WeatherService.WeatherCache.GetForecast` | src/services/weatherService.js:47-50 | the forecast part of the same cache step |
| `WeatherService.CurrentThenForecast` | src/hooks/useWeather.js:16-21 | `getWeather` then a `getForecast` starting less than a minute after the first call started send at most two requests; a failure can only come from a miss, carries that fetch's error, is passed on and leaves the slot; after a successful miss the slot is stamped with the first call's start time and holds the composite that fetch built, the second call hits, and both parts come from that composite; after a hit the first part is the cached data and the second call is an ordinary cache step at its own time |
| `Helpers.Round` | src/utils/helpers.js:26-28 | `Math.round` gives the integer within half a unit, rounding halves up |
| `Helpers.FormatTemp` | src/utils/helpers.js:24-29 | 'F' gives the rounded `temp * 9/5 + 32`; any other unit gives the rounded temperature |
| `Helpers.RoundMonotone` | src/utils/helpers.js:26-28 | rounding is monotone |
| `Helpers.FormatTempMonotone` | src/utils/helpers.js:24-29 | `formatTemp` is monotone in the temperature for a fixed unit |
| `Helpers.FormatTempSamples` | src/utils/helpers.js:24-29 | 0 °C is 32 °F, 100 °C is 212 °F, -40 °C is -40 °F; 21.5 in the default unit is 22; the default unit acts like any unit other than 'F' |
| `Helpers.ToMillis` | src/utils/helpers.js:3 | values above 10^10 are kept, all others are multiplied by 1000 |
| `Helpers.SecondsAndMillisAgree` | src/utils/helpers.js:2-3 | for seconds between 10^7 and 10^10, the seconds and the milliseconds spellings normalise to the same value |
| `Helpers.ToMillisIdempotentInRange` | src/utils/helpers.js:3 | above 10^7, normalising twice equals normalising once |
| `Helpers.FormatDate` | src/utils/helpers.js:1-10 | formats the normalised instant |
| `Helpers.FormatDay` | src/utils/helpers.js:12-16 | formats the normalised instant |
| `Helpers.FormatTime` | src/utils/helpers.js:18-22 | formats the normalised instant |
| `Helpers.FormattersAgreeOnUnits` | src/utils/helpers.js:1-22 | the three formatters share the same guess, so each gives the same text for an instant in seconds or in milliseconds |

## Left out

- The HTTP requests (URLs, query strings, `fetch`, `response.json()`) and console logging are not modelled. The parsed response, or the message of the error the request threw, is an input (`WeatherService.Provider`).
- Clock reads are parameters. `fetchCompleteData` takes `now` at its start and `mapNow` for the mapper. The mapper's two reads (`new Date()` and `Date.now()`) are modelled as one value.
- Parsing of date strings is not modelled. Hourly instants are given already parsed to milliseconds. Daily `YYYY-MM-DD` strings go through `Locale.parseDate`. Every non-empty daily `time` string is assumed to be a valid date: in the source an invalid one makes `Intl.DateTimeFormat(...).format` throw a `RangeError`, which fails `formatDailyForecast` and the whole fetch, while the model's `Locale.weekdayShort` is total.
- Locale and `Intl` formatting (weekday, hour and date labels) are uninterpreted functions of `Locale`.
- Floating point is not modelled: temperatures and visibility are reals. NaN appears only as a value read from the hourly or daily arrays. The `current_weather` fields are taken to be numbers.
- Payloads that make the source throw a `TypeError` are not modelled: a missing `hourly` block or `current_weather` block; a missing hourly array (`time`, `relativehumidity_2m`, `surface_pressure`, `visibility`, `apparent_temperature`); or a missing daily temperature or `weathercode` array next to a present daily `time` array. In short, any block or array the code indexes. The datatypes make all of these present.
- Non-integer keys for `getByWMOCode` (a code given as a string) are not modelled. A `null` entry in the daily `weathercode` array is not modelled either: the codes are integers, so only an out-of-range read (`undefined`) reaches the `{Unknown, 03d}` fallback. In the source a `null` code gets that fallback too, and the day carries `weatherCode: null`.
- Overlapping asynchronous `fetchCompleteData` calls are not modelled, because that is concurrency; calls run one after another.
- The React views, the theme toggle, debounced search, the trend chart's scaling, and the hook's loading state are not modelled. They only consume this data.
