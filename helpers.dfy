/** Display helpers: temperature conversion with `Math.round`, and the
    seconds-or-milliseconds guess the date formatters share. */
module Helpers {
  import opened JsRuntime

  /** `Math.round(x)`: the nearest integer, halves rounded up. */
  function Round(x: real): (r: int)
    ensures r as real <= x + 0.5 < r as real + 1.0
    ensures x - 0.5 < r as real <= x + 0.5
  {
    (x + 0.5).Floor
  }

  /** The unit used when the caller passes none. */
  const DefaultUnit := "C"

  /** `formatTemp(temp, unit)`: the rounded Fahrenheit value for 'F', and
      the rounded input, read as Celsius, for every other unit. */
  function FormatTemp(temp: real, unit: string): (r: int)
    ensures unit == "F" ==> temp * 9.0 / 5.0 + 32.0 - 0.5 < r as real <= temp * 9.0 / 5.0 + 32.0 + 0.5
    ensures unit != "F" ==> temp - 0.5 < r as real <= temp + 0.5
  {
    if unit == "F" then Round(temp * 9.0 / 5.0 + 32.0) else Round(temp)
  }

  /** Rounding never reverses the order of two temperatures. */
  lemma RoundMonotone(x: real, y: real)
    requires x <= y
    ensures Round(x) <= Round(y)
  {
  }

  /** For a fixed unit, `formatTemp` is monotone in the temperature. */
  lemma FormatTempMonotone(a: real, b: real, unit: string)
    requires a <= b
    ensures FormatTemp(a, unit) <= FormatTemp(b, unit)
  {
    if unit == "F" {
      RoundMonotone(a * 9.0 / 5.0 + 32.0, b * 9.0 / 5.0 + 32.0);
    } else {
      RoundMonotone(a, b);
    }
  }

  /** Freezing and boiling points, and the default unit. */
  lemma FormatTempSamples(t: real)
    ensures FormatTemp(0.0, "F") == 32
    ensures FormatTemp(100.0, "F") == 212
    ensures FormatTemp(-40.0, "F") == -40
    ensures FormatTemp(21.5, DefaultUnit) == 22
    ensures FormatTemp(t, DefaultUnit) == FormatTemp(t, "K")
  {
  }

  /** Above this value a timestamp is taken to be in milliseconds. */
  const MillisThreshold: real := 10000000000.0

  /** The unit guess `timestamp > 10000000000 ? timestamp : timestamp * 1000`. */
  function ToMillis(timestamp: real): (r: real)
    ensures timestamp > MillisThreshold ==> r == timestamp
    ensures timestamp <= MillisThreshold ==> r == timestamp * 1000.0
  {
    if timestamp > MillisThreshold then timestamp else timestamp * 1000.0
  }

  /** The guess is right for an instant given in seconds or in milliseconds
      as long as its seconds value lies between 10^7 and 10^10 (from 1970-04
      to 2286-11): both spellings normalise to the same milliseconds. */
  lemma SecondsAndMillisAgree(seconds: real)
    requires 10000000.0 < seconds <= MillisThreshold
    ensures ToMillis(seconds) == ToMillis(seconds * 1000.0) == seconds * 1000.0
  {
  }

  /** Normalising an already normalised value of that range changes nothing. */
  lemma ToMillisIdempotentInRange(timestamp: real)
    requires timestamp > 10000000.0
    ensures ToMillis(ToMillis(timestamp)) == ToMillis(timestamp)
  {
  }

  /** `formatDate(timestamp)`. */
  function FormatDate(timestamp: real, locale: Locale): (r: string)
    ensures timestamp > MillisThreshold ==> r == locale.shortDate(timestamp)
    ensures timestamp <= MillisThreshold ==> r == locale.shortDate(timestamp * 1000.0)
  {
    locale.shortDate(ToMillis(timestamp))
  }

  /** `formatDay(timestamp)`. */
  function FormatDay(timestamp: real, locale: Locale): (r: string)
    ensures timestamp > MillisThreshold ==> r == locale.longWeekday(timestamp)
    ensures timestamp <= MillisThreshold ==> r == locale.longWeekday(timestamp * 1000.0)
  {
    locale.longWeekday(ToMillis(timestamp))
  }

  /** `formatTime(timestamp)`. */
  function FormatTime(timestamp: real, locale: Locale): (r: string)
    ensures timestamp > MillisThreshold ==> r == locale.clockTime(timestamp)
    ensures timestamp <= MillisThreshold ==> r == locale.clockTime(timestamp * 1000.0)
  {
    locale.clockTime(ToMillis(timestamp))
  }

  /** The three formatters share the guess: each gives the same text for an
      instant whether it is passed in seconds or in milliseconds. */
  lemma FormattersAgreeOnUnits(seconds: real, locale: Locale)
    requires 10000000.0 < seconds <= MillisThreshold
    ensures FormatDate(seconds, locale) == FormatDate(seconds * 1000.0, locale)
    ensures FormatDay(seconds, locale) == FormatDay(seconds * 1000.0, locale)
    ensures FormatTime(seconds, locale) == FormatTime(seconds * 1000.0, locale)
  {
    SecondsAndMillisAgree(seconds);
  }
}
