/** The WMO code table (description and icon per code) and the normaliser
    that turns Open-Meteo's daily block into the five-day forecast. */
module ForecastFormatter {
  import opened Wrappers
  import opened JsRuntime

  /** What the table gives for a code. */
  datatype Condition = Condition(description: string, icon: string)

  /** The fallback for every code the table does not list. */
  const UnknownCondition := Condition("Unknown", "03d")

  /** The object literal `table` of `getByWMOCode`. */
  const WmoTable: map<int, Condition> := map[
    0 := Condition("Clear Sky", "01d"),
    1 := Condition("Mainly Clear", "02d"),
    2 := Condition("Partly Cloudy", "03d"),
    3 := Condition("Overcast", "04d"),
    45 := Condition("Fog", "50d"),
    48 := Condition("Depositing Rime Fog", "50d"),
    51 := Condition("Light Drizzle", "09d"),
    53 := Condition("Moderate Drizzle", "09d"),
    55 := Condition("Dense Drizzle", "09d"),
    61 := Condition("Slight Rain", "10d"),
    63 := Condition("Moderate Rain", "10d"),
    65 := Condition("Heavy Rain", "10d"),
    71 := Condition("Slight Snow", "13d"),
    73 := Condition("Moderate Snow", "13d"),
    75 := Condition("Heavy Snow", "13d"),
    80 := Condition("Slight Rain Showers", "09d"),
    81 := Condition("Moderate Rain Showers", "09d"),
    82 := Condition("Violent Rain Showers", "09d"),
    95 := Condition("Thunderstorm", "11d"),
    96 := Condition("Thunderstorm with Hail", "11d"),
    99 := Condition("Thunderstorm with Heavy Hail", "11d")
  ]

  /** The icons the lookup can produce. */
  const Icons: set<string> := {"01d", "02d", "03d", "04d", "09d", "10d", "11d", "13d", "50d"}

  /** `getByWMOCode(code)`: the table's entry, or the fallback. Every entry
      of the table is an object, hence truthy, so `||` replaces only a
      missing entry. */
  function GetByWmoCode(code: int): (r: Condition)
    ensures code in WmoTable ==> r == WmoTable[code]
    ensures r == UnknownCondition <==> code !in WmoTable
    ensures r.description == "Unknown" <==> code !in WmoTable
    ensures r.icon in Icons
  {
    if code in WmoTable then WmoTable[code] else UnknownCondition
  }

  /** `getByWMOCode(weathercode[index])` when the read may be `undefined`:
      the table has no entry under that key either. */
  function GetByReadCode(code: Option<int>): (r: Condition)
    ensures code.None? ==> r == UnknownCondition
    ensures code.Some? ==> r == GetByWmoCode(code.value)
  {
    if code.Some? then GetByWmoCode(code.value) else UnknownCondition
  }

  /** Open-Meteo's `daily` block: a `time` array of `YYYY-MM-DD` strings and
      the arrays aligned with it. */
  datatype DailyBlock = DailyBlock(
    time: Option<seq<string>>,         // time
    tempMax: seq<JsNum>,               // temperature_2m_max
    tempMin: seq<JsNum>,               // temperature_2m_min
    weatherCode: seq<int>)             // weathercode

  /** One day of the normalised forecast. */
  datatype ForecastDay = ForecastDay(
    date: string,
    dayLabel: string,
    minTemp: JsNum,
    maxTemp: JsNum,
    avgTemp: JsNum,
    weatherCode: Option<int>,
    condition: string,
    icon: string,
    dt: real)

  /** The source positions the normaliser visits: tomorrow and the four days
      after it; position 0 is today. */
  const Indices: seq<int> := [1, 2, 3, 4, 5]

  /** The j-th visited position is j + 1. */
  lemma IndexAt(j: int)
    requires 0 <= j < |Indices|
    ensures Indices[j] == j + 1
  {
  }

  /** `dailyData.time[index]` is truthy: present and not the empty string. */
  predicate HasDate(times: seq<string>, index: int) {
    0 <= index < |times| && times[index] != ""
  }

  /** The object the `map` callback builds for a position with a date. */
  function DayAt(d: DailyBlock, times: seq<string>, index: int, locale: Locale): (r: ForecastDay)
    requires HasDate(times, index)
    ensures r.date == times[index]
    ensures r.minTemp == NumAt(d.tempMin, index) && r.maxTemp == NumAt(d.tempMax, index)
    ensures r.weatherCode == Get(d.weatherCode, index)
    ensures r.minTemp.Num? && r.maxTemp.Num? ==> r.avgTemp == Num((r.minTemp.v + r.maxTemp.v) / 2.0)
    ensures r.minTemp.Num? && r.maxTemp.Num? && r.minTemp.v <= r.maxTemp.v ==>
              r.minTemp.v <= r.avgTemp.v <= r.maxTemp.v
    ensures r.minTemp.Null? && r.maxTemp.Num? ==> r.avgTemp == Num(r.maxTemp.v / 2.0)
    ensures r.minTemp.Num? && r.maxTemp.Null? ==> r.avgTemp == Num(r.minTemp.v / 2.0)
    ensures r.minTemp.Null? && r.maxTemp.Null? ==> r.avgTemp == Num(0.0)
    ensures r.minTemp in {Undefined, NaN} || r.maxTemp in {Undefined, NaN} ==> r.avgTemp == NaN
    ensures r.condition == GetByReadCode(r.weatherCode).description
    ensures r.icon == GetByReadCode(r.weatherCode).icon
    ensures r.dayLabel == locale.weekdayShort(times[index])
    ensures r.dt == locale.parseDate(times[index]) / 1000.0
  {
    var timeStr := times[index];
    var maxTemp := NumAt(d.tempMax, index);
    var minTemp := NumAt(d.tempMin, index);
    var weatherCode := Get(d.weatherCode, index);
    var info := GetByReadCode(weatherCode);
    ForecastDay(
      date := timeStr,
      dayLabel := locale.weekdayShort(timeStr),
      minTemp := minTemp,
      maxTemp := maxTemp,
      avgTemp := DivBy(Plus(minTemp, maxTemp), 2.0),
      weatherCode := weatherCode,
      condition := info.description,
      icon := info.icon,
      dt := locale.parseDate(timeStr) / 1000.0)
  }

  /** The `map` callback: `null` for a position without a date. */
  function Candidate(d: DailyBlock, times: seq<string>, index: int, locale: Locale): Option<ForecastDay> {
    if HasDate(times, index) then Some(DayAt(d, times, index, locale)) else None
  }

  /** `indices.map(callback)`. */
  function Candidates(d: DailyBlock, times: seq<string>, indices: seq<int>, locale: Locale): (r: seq<Option<ForecastDay>>)
    ensures |r| == |indices|
    ensures forall j :: 0 <= j < |r| ==> r[j] == Candidate(d, times, indices[j], locale)
  {
    seq(|indices|, j requires 0 <= j < |indices| => Candidate(d, times, indices[j], locale))
  }

  /** `.filter(Boolean)`: drops the `null`s and keeps the rest in order. */
  function Compact<T>(s: seq<Option<T>>): (r: seq<T>)
    ensures |r| <= |s|
    ensures forall i :: 0 <= i < |r| ==> Some(r[i]) in s
    ensures forall i :: 0 <= i < |s| && s[i].Some? ==> s[i].value in r
    ensures (forall i :: 0 <= i < |s| ==> s[i].Some?) ==>
              |r| == |s| && forall i :: 0 <= i < |s| ==> r[i] == s[i].value
  {
    if s == [] then []
    else (if s[0].Some? then [s[0].value] else []) + Compact(s[1..])
  }

  /** `.filter` distributes over concatenation: each part is filtered in
      place, so order and repetitions are kept. */
  lemma {:induction false} CompactAppend<T>(a: seq<Option<T>>, b: seq<Option<T>>)
    ensures Compact(a + b) == Compact(a) + Compact(b)
  {
    if a == [] {
      assert a + b == b;
    } else {
      var head := if a[0].Some? then [a[0].value] else [];
      assert (a + b)[0] == a[0];
      assert (a + b)[1..] == a[1..] + b;
      CompactAppend(a[1..], b);
      calc {
        Compact(a + b);
        head + Compact(a[1..] + b);
        head + (Compact(a[1..]) + Compact(b));
        (head + Compact(a[1..])) + Compact(b);
        Compact(a) + Compact(b);
      }
    }
  }

  /** A single present value is kept, a single `null` is dropped. */
  lemma CompactSingle<T>(x: T)
    ensures Compact([Some(x)]) == [x]
    ensures Compact<T>([None]) == []
  {
  }

  /** The positions, among `indices`, that carry a date, in their order. */
  function DatedIndices(times: seq<string>, indices: seq<int>): (r: seq<int>)
    ensures |r| <= |indices|
    ensures forall k :: k in r <==> k in indices && HasDate(times, k)
  {
    if indices == [] then []
    else (if HasDate(times, indices[0]) then [indices[0]] else []) + DatedIndices(times, indices[1..])
  }

  /** The days at the dated positions, in order. */
  function DaysAt(d: DailyBlock, times: seq<string>, ks: seq<int>, locale: Locale): (r: seq<ForecastDay>)
    requires forall k :: k in ks ==> HasDate(times, k)
    ensures |r| == |ks|
  {
    seq(|ks|, j requires 0 <= j < |ks| => DayAt(d, times, ks[j], locale))
  }

  /** `formatDailyForecast(dailyData, timezone)`. A missing block or a
      missing `time` array gives the empty forecast; otherwise the days at
      positions 1..5 that have a date, in that order. The time zone is not
      used. */
  function FormatDailyForecast(daily: Option<DailyBlock>, timezone: string, locale: Locale): (r: seq<ForecastDay>)
    ensures |r| <= 5
    ensures daily.None? || daily.value.time.None? ==> r == []
    ensures daily.Some? && daily.value.time.Some? ==>
              var ks := DatedIndices(daily.value.time.value, Indices);
              |r| == |ks| && forall j :: 0 <= j < |r| ==> r[j] == DayAt(daily.value, daily.value.time.value, ks[j], locale)
  {
    if daily.None? || daily.value.time.None? then []
    else
      var d := daily.value;
      var times := d.time.value;
      CompactCandidates(d, times, Indices, locale);
      Compact(Candidates(d, times, Indices, locale))
  }

  /** Mapping every position then dropping the `null`s gives the days at the
      dated positions. */
  lemma {:induction false} CompactCandidates(d: DailyBlock, times: seq<string>, indices: seq<int>, locale: Locale)
    ensures Compact(Candidates(d, times, indices, locale))
            == DaysAt(d, times, DatedIndices(times, indices), locale)
  {
    if indices != [] {
      var c := Candidates(d, times, indices, locale);
      assert c[1..] == Candidates(d, times, indices[1..], locale);
      CompactCandidates(d, times, indices[1..], locale);
      var rest := DatedIndices(times, indices[1..]);
      if HasDate(times, indices[0]) {
        DaysAtCons(d, times, indices[0], rest, locale);
      }
    }
  }

  /** Unfolding `DaysAt` by one position. */
  lemma DaysAtCons(d: DailyBlock, times: seq<string>, k: int, ks: seq<int>, locale: Locale)
    requires HasDate(times, k) && forall x :: x in ks ==> HasDate(times, x)
    ensures DaysAt(d, times, [k] + ks, locale) == [DayAt(d, times, k, locale)] + DaysAt(d, times, ks, locale)
  {
    var l, r := DaysAt(d, times, [k] + ks, locale), [DayAt(d, times, k, locale)] + DaysAt(d, times, ks, locale);
    assert |l| == |r|;
    forall j | 0 <= j < |l| ensures l[j] == r[j] {
      if j > 0 {
        assert ([k] + ks)[j] == ks[j - 1];
      }
    }
  }

  /** Strictly increasing positions. */
  predicate Increasing(s: seq<int>) {
    forall i, j :: 0 <= i < j < |s| ==> s[i] < s[j]
  }

  /** Filtering keeps an increasing list increasing. */
  lemma {:induction false} DatedIndicesIncreasing(times: seq<string>, indices: seq<int>)
    requires Increasing(indices)
    ensures Increasing(DatedIndices(times, indices))
  {
    if indices != [] {
      DatedIndicesIncreasing(times, indices[1..]);
      var rest := DatedIndices(times, indices[1..]);
      if HasDate(times, indices[0]) {
        var r := [indices[0]] + rest;
        forall i, j | 0 <= i < j < |r| ensures r[i] < r[j] {
          if i == 0 {
            assert r[j] == rest[j - 1] && rest[j - 1] in rest;
            var p :| 0 <= p < |indices[1..]| && indices[1..][p] == r[j];
            assert indices[0] < indices[p + 1];
          } else {
            assert r[i] == rest[i - 1] && r[j] == rest[j - 1];
          }
        }
      }
    }
  }

  /** The forecast uses only positions 1..5, each at most once, in
      ascending order; a position is used exactly when it has a date. */
  lemma WindowAndOrder(times: seq<string>)
    ensures var ks := DatedIndices(times, Indices);
      Increasing(ks)
      && (forall j :: 0 <= j < |ks| ==> 1 <= ks[j] <= 5)
      && (forall k :: k in ks <==> 1 <= k <= 5 && HasDate(times, k))
  {
    DatedIndicesIncreasing(times, Indices);
    var ks := DatedIndices(times, Indices);
    forall j | 0 <= j < |ks| ensures 1 <= ks[j] <= 5 {
      assert ks[j] in ks;
    }
  }

  /** When every visited position has a date, all of them are kept. */
  lemma {:induction false} AllDated(times: seq<string>, indices: seq<int>)
    requires forall k :: k in indices ==> HasDate(times, k)
    ensures DatedIndices(times, indices) == indices
  {
    if indices != [] {
      AllDated(times, indices[1..]);
    }
  }

  /** A block with a non-empty date at every position 1..5 yields exactly
      five days, the i-th from position i + 1. */
  lemma FiveFullDays(d: DailyBlock, timezone: string, locale: Locale)
    requires d.time.Some? && |d.time.value| >= 6
    requires forall i :: 1 <= i <= 5 ==> d.time.value[i] != ""
    ensures |FormatDailyForecast(Some(d), timezone, locale)| == 5
    ensures forall j :: 0 <= j < 5 ==> FormatDailyForecast(Some(d), timezone, locale)[j] == DayAt(d, d.time.value, j + 1, locale)
  {
    FiveDated(d.time.value);
    forall j | 0 <= j < 5
      ensures FormatDailyForecast(Some(d), timezone, locale)[j] == DayAt(d, d.time.value, j + 1, locale)
    {
      IndexAt(j);
    }
  }

  /** Dates at every position 1..5 select all five positions. */
  lemma FiveDated(times: seq<string>)
    requires |times| >= 6
    requires forall i :: 1 <= i <= 5 ==> times[i] != ""
    ensures DatedIndices(times, Indices) == Indices
  {
    assert forall k :: k in Indices ==> HasDate(times, k);
    AllDated(times, Indices);
  }

  /** Today's entries (position 0 of every array) never affect the result. */
  lemma IgnoresToday(d: DailyBlock, e: DailyBlock, timezone: string, locale: Locale)
    requires d.time.Some? && e.time.Some?
    requires |d.time.value| == |e.time.value| && |d.tempMax| == |e.tempMax|
    requires |d.tempMin| == |e.tempMin| && |d.weatherCode| == |e.weatherCode|
    requires forall i :: 1 <= i < |d.time.value| ==> d.time.value[i] == e.time.value[i]
    requires forall i :: 1 <= i < |d.tempMax| ==> d.tempMax[i] == e.tempMax[i]
    requires forall i :: 1 <= i < |d.tempMin| ==> d.tempMin[i] == e.tempMin[i]
    requires forall i :: 1 <= i < |d.weatherCode| ==> d.weatherCode[i] == e.weatherCode[i]
    ensures FormatDailyForecast(Some(d), timezone, locale) == FormatDailyForecast(Some(e), timezone, locale)
  {
    var dt, et := d.time.value, e.time.value;
    DatedIndicesAgree(dt, et, Indices);
    WindowAndOrder(dt);
    DaysAgree(d, e, DatedIndices(dt, Indices), locale);
  }

  /** Two blocks that agree away from position 0 build the same days at
      positions from 1 on. */
  lemma DaysAgree(d: DailyBlock, e: DailyBlock, ks: seq<int>, locale: Locale)
    requires d.time.Some? && e.time.Some?
    requires |d.time.value| == |e.time.value| && |d.tempMax| == |e.tempMax|
    requires |d.tempMin| == |e.tempMin| && |d.weatherCode| == |e.weatherCode|
    requires forall i :: 1 <= i < |d.time.value| ==> d.time.value[i] == e.time.value[i]
    requires forall i :: 1 <= i < |d.tempMax| ==> d.tempMax[i] == e.tempMax[i]
    requires forall i :: 1 <= i < |d.tempMin| ==> d.tempMin[i] == e.tempMin[i]
    requires forall i :: 1 <= i < |d.weatherCode| ==> d.weatherCode[i] == e.weatherCode[i]
    requires forall k :: k in ks ==> 1 <= k && HasDate(d.time.value, k)
    ensures forall k :: k in ks ==> HasDate(e.time.value, k)
    ensures forall j :: 0 <= j < |ks| ==>
              DayAt(d, d.time.value, ks[j], locale) == DayAt(e, e.time.value, ks[j], locale)
  {
    forall j | 0 <= j < |ks| ensures HasDate(e.time.value, ks[j]) {
      assert ks[j] in ks;
    }
    forall j | 0 <= j < |ks|
      ensures DayAt(d, d.time.value, ks[j], locale) == DayAt(e, e.time.value, ks[j], locale)
    {
      assert ks[j] in ks;
      DayAtAgrees(d, e, d.time.value, ks[j], locale);
    }
  }

  /** Two blocks that agree at one dated position build the same day there. */
  lemma DayAtAgrees(d: DailyBlock, e: DailyBlock, times: seq<string>, k: int, locale: Locale)
    requires HasDate(times, k)
    requires |d.tempMax| == |e.tempMax| && |d.tempMin| == |e.tempMin| && |d.weatherCode| == |e.weatherCode|
    requires k < |d.tempMax| ==> d.tempMax[k] == e.tempMax[k]
    requires k < |d.tempMin| ==> d.tempMin[k] == e.tempMin[k]
    requires k < |d.weatherCode| ==> d.weatherCode[k] == e.weatherCode[k]
    ensures DayAt(d, times, k, locale) == DayAt(e, times, k, locale)
  {
    assert NumAt(d.tempMax, k) == NumAt(e.tempMax, k);
    assert NumAt(d.tempMin, k) == NumAt(e.tempMin, k);
    assert Get(d.weatherCode, k) == Get(e.weatherCode, k);
  }

  /** Two `time` arrays that agree on the visited positions select the same
      positions. */
  lemma {:induction false} DatedIndicesAgree(a: seq<string>, b: seq<string>, indices: seq<int>)
    requires |a| == |b|
    requires forall k :: k in indices && 0 <= k < |a| ==> a[k] == b[k]
    ensures DatedIndices(a, indices) == DatedIndices(b, indices)
  {
    if indices != [] {
      DatedIndicesAgree(a, b, indices[1..]);
    }
  }

  /** The `timezone` argument does not affect the result. */
  lemma TimezoneUnused(daily: Option<DailyBlock>, tz1: string, tz2: string, locale: Locale)
    ensures FormatDailyForecast(daily, tz1, locale) == FormatDailyForecast(daily, tz2, locale)
  {
  }

  /** Sample values of the table. */
  lemma TableSamples()
    ensures GetByWmoCode(3) == Condition("Overcast", "04d")
    ensures GetByWmoCode(0) == Condition("Clear Sky", "01d")
    ensures GetByWmoCode(99) == Condition("Thunderstorm with Heavy Hail", "11d")
    ensures GetByWmoCode(77) == UnknownCondition
  {
  }
}
