/** Classification of a WMO 4677 present-weather code, as Open-Meteo reports
    it, into one of ten animation categories, with a day/night variant for
    clear and partly cloudy skies. */
module WeatherVisualMapper {
  import opened Wrappers

  /** The `VISUALS` enumeration. */
  datatype Visual =
    | ClearDay | ClearNight | Cloudy | PartlyCloudyDay | PartlyCloudyNight
    | Rain | Snow | Thunder | Fog | Drizzle
  {
    /** The string value the enumeration gives each category. */
    function Key(): string {
      match this
      case ClearDay => "clear-day"
      case ClearNight => "clear-night"
      case Cloudy => "cloudy"
      case PartlyCloudyDay => "partly-cloudy-day"
      case PartlyCloudyNight => "partly-cloudy-night"
      case Rain => "rain"
      case Snow => "snow"
      case Thunder => "thunder"
      case Fog => "fog"
      case Drizzle => "drizzle"
    }
  }

  /** The ten strings of the enumeration. */
  const VisualKeys: set<string> := {
    "clear-day", "clear-night", "cloudy", "partly-cloudy-day", "partly-cloudy-night",
    "rain", "snow", "thunder", "fog", "drizzle"
  }

  // The code groups, as sets; the classifier below tests literal lists, as `includes` does.
  const ClearCodes: set<int> := {0, 1}
  const FogCodes: set<int> := {45, 48}
  const DrizzleCodes: set<int> := {51, 53, 55}
  const RainCodes: set<int> := {61, 63, 65, 80, 81, 82}
  const SnowCodes: set<int> := {71, 73, 75, 77, 85, 86}
  const ThunderCodes: set<int> := {95, 96, 99}

  /** Codes whose category does not depend on the time of day. */
  const DayIndependentCodes: set<int> :=
    {3} + FogCodes + DrizzleCodes + RainCodes + SnowCodes + ThunderCodes

  /** Every code the classifier names explicitly. */
  const ClassifiedCodes: set<int> := ClearCodes + {2} + DayIndependentCodes

  /** `getWeatherVisual(code, isDay)`: a priority-ordered chain of tests. */
  function GetWeatherVisual(code: int, isDay: bool): (r: Visual)
    ensures code in ClearCodes ==> r == (if isDay then ClearDay else ClearNight)
    ensures code == 2 ==> r == (if isDay then PartlyCloudyDay else PartlyCloudyNight)
    ensures code == 3 ==> r == Cloudy
    ensures code in FogCodes ==> r == Fog
    ensures code in DrizzleCodes ==> r == Drizzle
    ensures code in RainCodes ==> r == Rain
    ensures code in SnowCodes ==> r == Snow
    ensures code in ThunderCodes ==> r == Thunder
    ensures code !in ClassifiedCodes ==> r == (if isDay then PartlyCloudyDay else PartlyCloudyNight)
    ensures r.Key() in VisualKeys
  {
    if code == 0 || code == 1 then (if isDay then ClearDay else ClearNight)
    else if code == 2 then (if isDay then PartlyCloudyDay else PartlyCloudyNight)
    else if code == 3 then Cloudy
    else if code in [45, 48] then Fog
    else if code in [51, 53, 55] then Drizzle
    else if code in [61, 63, 65, 80, 81, 82] then Rain
    else if code in [71, 73, 75, 77, 85, 86] then Snow
    else if code in [95, 96, 99] then Thunder
    else if isDay then PartlyCloudyDay else PartlyCloudyNight
  }

  /** The same call when the caller omits `isDay`, which then defaults to
      `true`; `None` stands for the omitted argument. */
  function GetWeatherVisualWithDefault(code: int, isDay: Option<bool>): (r: Visual)
    ensures isDay.None? ==> r == GetWeatherVisual(code, true)
    ensures isDay.Some? ==> r == GetWeatherVisual(code, isDay.value)
  {
    GetWeatherVisual(code, if isDay.Some? then isDay.value else true)
  }

  /** The enumeration's strings are pairwise distinct, so the category can be
      recovered from its string, and they are exactly the ten listed. */
  lemma KeysDistinct(a: Visual, b: Visual)
    ensures a.Key() == b.Key() ==> a == b
    ensures a.Key() in VisualKeys
  {
  }

  /** The time of day matters exactly outside the day-independent groups. */
  lemma DayMattersIff(code: int)
    ensures GetWeatherVisual(code, true) == GetWeatherVisual(code, false)
            <==> code in DayIndependentCodes
  {
  }

  /** Only the four sky categories have a day and a night variant, and the
      day call never yields a night category. */
  lemma DayNeverNight(code: int)
    ensures GetWeatherVisual(code, true) !in {ClearNight, PartlyCloudyNight}
    ensures GetWeatherVisual(code, false) !in {ClearDay, PartlyCloudyDay}
  {
  }

  /** Sample values: 0 by day and night, 61 by day, and the fallback for an
      unknown code. */
  lemma Samples()
    ensures GetWeatherVisual(0, true) == ClearDay
    ensures GetWeatherVisual(0, false) == ClearNight
    ensures GetWeatherVisual(61, true) == Rain
    ensures GetWeatherVisual(999, true) == PartlyCloudyDay
    ensures GetWeatherVisual(999, false) == PartlyCloudyNight
    ensures GetWeatherVisual(3, false) == Cloudy
  {
  }
}
