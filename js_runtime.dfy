/** The few pieces of JavaScript semantics the pipeline relies on: numeric
    values read from JSON (with `null`, `undefined` and `NaN`), truthiness and
    `||` defaults, out-of-range array reads, `Array.prototype.findIndex`,
    `Array.prototype.slice`, and the host's date and locale functions, which
    the model takes as parameters. */
module JsRuntime {
  import opened Wrappers

  /** A value read from a numeric field of a parsed JSON response. A read past
      the end of an array gives `Undefined`. */
  datatype JsNum = Num(v: real) | Null | Undefined | NaN

  /** JavaScript truthiness of such a value: `0`, `null`, `undefined` and
      `NaN` are falsy, every other number is truthy. */
  predicate Truthy(x: JsNum) {
    x.Num? && x.v != 0.0
  }

  /** `x || d` where `d` is a number: the result is always a number. */
  function OrNum(x: JsNum, d: real): (r: real)
    ensures Truthy(x) ==> r == x.v && r != 0.0
    ensures !Truthy(x) ==> r == d
  {
    if Truthy(x) then x.v else d
  }

  /** `x || d` on an integer: only `0` is replaced. */
  function OrInt(x: int, d: int): (r: int)
    ensures x != 0 ==> r == x
    ensures x == 0 ==> r == d
  {
    if x != 0 then x else d
  }

  /** Numeric conversion as done by the arithmetic operators. */
  function ToNumber(x: JsNum): JsNum {
    match x
    case Null => Num(0.0)
    case Undefined => NaN
    case _ => x
  }

  /** `a + b` on two numeric values. */
  function Plus(a: JsNum, b: JsNum): (r: JsNum)
    ensures a.Num? && b.Num? ==> r == Num(a.v + b.v)
    ensures a == Undefined || b == Undefined || a == NaN || b == NaN ==> r == NaN
    ensures a.Null? && b.Num? ==> r == b
    ensures a.Num? && b.Null? ==> r == a
    ensures a.Null? && b.Null? ==> r == Num(0.0)
  {
    var x, y := ToNumber(a), ToNumber(b);
    if x.Num? && y.Num? then Num(x.v + y.v) else NaN
  }

  /** `a / d` for a non-zero numeric literal `d`. */
  function DivBy(a: JsNum, d: real): (r: JsNum)
    requires d != 0.0
    ensures Truthy(r) <==> Truthy(a)
    ensures a.Num? ==> r == Num(a.v / d)
  {
    var x := ToNumber(a);
    if x.Num? then Num(x.v / d) else NaN
  }

  /** `s[i]` on an array of numbers: `undefined` outside `0 <= i < |s|`,
      including every negative index. */
  function NumAt(s: seq<JsNum>, i: int): (r: JsNum)
    ensures !(0 <= i < |s|) ==> r == Undefined
    ensures 0 <= i < |s| ==> r == s[i]
  {
    if 0 <= i < |s| then s[i] else Undefined
  }

  /** `s[i]` on any other array; `None` stands for `undefined`. */
  function Get<T>(s: seq<T>, i: int): (r: Option<T>)
    ensures r.Some? <==> 0 <= i < |s|
    ensures r.Some? ==> r.value == s[i]
  {
    if 0 <= i < |s| then Some(s[i]) else None
  }

  /** `times.findIndex(t => t >= now)`, the timestamps already parsed to
      milliseconds: the first position holding an instant at or after `now`,
      or -1 when there is none. */
  function FindIndexAtOrAfter(times: seq<int>, now: int): (i: int)
    ensures -1 <= i < |times|
    ensures i == -1 <==> forall j :: 0 <= j < |times| ==> times[j] < now
    ensures 0 <= i ==> now <= times[i] && forall j :: 0 <= j < i ==> times[j] < now
  {
    if times == [] then -1
    else if now <= times[0] then 0
    else
      var rest := FindIndexAtOrAfter(times[1..], now);
      if rest == -1 then -1 else rest + 1
  }

  /** How `Array.prototype.slice` resolves a start or end argument against
      an array of length `len`: a negative argument counts from the end, and
      the result is clamped to `0..len`. */
  function RelativeIndex(i: int, len: nat): (r: nat)
    ensures r <= len
    ensures 0 <= i ==> r == if i < len then i else len
    ensures i < 0 ==> r == if len + i < 0 then 0 else len + i
  {
    if i < 0 then (if len + i < 0 then 0 else len + i)
    else if i < len then i
    else len
  }

  /** `s.slice(start, end)`. */
  function Slice<T>(s: seq<T>, start: int, end: int): (r: seq<T>)
    ensures var from, to := RelativeIndex(start, |s|), RelativeIndex(end, |s|);
      |r| == (if from < to then to - from else 0)
      && forall j :: 0 <= j < |r| ==> r[j] == s[from + j]
  {
    var from, to := RelativeIndex(start, |s|), RelativeIndex(end, |s|);
    if from < to then s[from..to] else []
  }

  /** The host's date and locale functions, which the model does not
      interpret. */
  datatype Locale = Locale(
    /** `new Date(s).getTime()` for a `YYYY-MM-DD` date string */
    parseDate: string -> real,
    /** `Intl.DateTimeFormat('en-US', {weekday: 'short'})` of a date string */
    weekdayShort: string -> string,
    /** `toLocaleTimeString` with a numeric 12-hour clock, of an hourly instant */
    hourLabel: int -> string,
    /** `Intl.DateTimeFormat('en-US', {weekday: 'short', day: 'numeric', month: 'short'})` of an instant in milliseconds */
    shortDate: real -> string,
    /** `Intl.DateTimeFormat('en-US', {weekday: 'long'})` of an instant in milliseconds */
    longWeekday: real -> string,
    /** `toLocaleTimeString` with two-digit hour and minute, of an instant in milliseconds */
    clockTime: real -> string)

  function Min(a: int, b: int): int {
    if a < b then a else b
  }
}
