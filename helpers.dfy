/**
 * The request helpers of the JSON API: the digits/unit time-frame check with
 * its clamp, the `id` path parameter, and the query-string readers.
 */
module Helpers {
  import opened Basics
  import Strconv
  import Strings
  import TimeDuration
  import opened Validation

  const InvalidUnitMessage := "invalid unit for time frame, valid units are: m, h, d"
  const InvalidIdMessage := "invalid id parameter"
  const NotIntegerMessage := "must be an integer value"

  predicate IsUnitString(unit: string) {
    unit == "m" || unit == "h" || unit == "d"
  }

  /** The largest count accepted unclamped for a unit: minutes, hours or days in the maximum window. */
  function Threshold(maxTimeFrameDays: int, unit: string): int
    requires IsUnitString(unit)
  {
    if unit == "m" then 60 * 24 * maxTimeFrameDays
    else if unit == "h" then 24 * maxTimeFrameDays
    else maxTimeFrameDays
  }

  /** validateTimeFrame, in minutes: an unknown unit is an error; a count above the unit's threshold is clamped to the maximum window. */
  function ValidateTimeFrame(maxTimeFrameDays: int, digits: int, unit: string): (r: Result<int, string>)
    ensures r.Failure? <==> !IsUnitString(unit)
    ensures r.Failure? ==> r.error == InvalidUnitMessage
    ensures r.Success? ==> r.value <= maxTimeFrameDays * 24 * 60
  {
    var maxTimeFrame := maxTimeFrameDays * 24 * 60;
    if unit != "m" && unit != "h" && unit != "d" then Failure(InvalidUnitMessage)
    else if unit == "m" && digits > 60 * 24 * maxTimeFrameDays then Success(maxTimeFrame)
    else if unit == "h" && digits > 24 * maxTimeFrameDays then Success(maxTimeFrame)
    else if unit == "d" && digits > maxTimeFrameDays then Success(maxTimeFrame)
    else if unit == "m" then Success(digits)
    else if unit == "h" then Success(digits * 60)
    else if unit == "d" then Success(digits * 60 * 24)
    else Success(TimeDuration.DefaultMinutes)
  }

  /** Up to and including the threshold (so also 0 and negative counts) the count converts exactly; above it the result is the maximum window. */
  lemma ClampRule(maxTimeFrameDays: int, digits: int, unit: string)
    requires IsUnitString(unit)
    ensures digits <= Threshold(maxTimeFrameDays, unit) ==>
      ValidateTimeFrame(maxTimeFrameDays, digits, unit) == Success(digits * TimeDuration.UnitMinutes(unit[0]))
    ensures digits > Threshold(maxTimeFrameDays, unit) ==>
      ValidateTimeFrame(maxTimeFrameDays, digits, unit) == Success(maxTimeFrameDays * 24 * 60)
  {
  }

  /**
   * The two parsers agree on a token whose count is within the threshold, and
   * above it the single-token parser exceeds the clamped window.
   */
  lemma {:induction false} ParsersCompared(maxTimeFrameDays: int, n: int, unit: char)
    requires TimeDuration.IsUnit(unit)
    ensures n <= Threshold(maxTimeFrameDays, [unit]) ==>
      Success(TimeDuration.ValidateTimeDuration(Strconv.Itoa(n) + [unit])) == ValidateTimeFrame(maxTimeFrameDays, n, [unit])
    ensures n > Threshold(maxTimeFrameDays, [unit]) ==>
      TimeDuration.ValidateTimeDuration(Strconv.Itoa(n) + [unit]) > ValidateTimeFrame(maxTimeFrameDays, n, [unit]).value
  {
    TimeDuration.WellFormedConvertsExactly(n, unit);
  }

  /** The defaults the CO2 handler feeds in are six minutes, not the other parser's six hours. */
  lemma DefaultsDisagree(maxTimeFrameDays: int)
    requires maxTimeFrameDays >= 1
    ensures ValidateTimeFrame(maxTimeFrameDays, 6, "m") == Success(6)
    ensures TimeDuration.ValidateTimeDuration("") == 6 * 60
  {
  }

  /** readIDParam: a base-10 integer of at least 1. */
  function ReadIdParam(param: string): (r: Result<int, string>)
    ensures r.Success? <==> Strconv.Atoi(param).Some? && Strconv.Atoi(param).value >= 1
    ensures r.Success? ==> r.value == Strconv.Atoi(param).value && r.value >= 1
    ensures r.Failure? ==> r.error == InvalidIdMessage
  {
    match Strconv.Atoi(param)
    case None => Failure(InvalidIdMessage)
    case Some(id) => if id < 1 then Failure(InvalidIdMessage) else Success(id)
  }

  /** Every positive id, written in decimal, is read back. */
  lemma {:induction false} ReadIdParamItoa(n: int)
    requires n >= 1
    ensures ReadIdParam(Strconv.Itoa(n)) == Success(n)
  {
    Strconv.AtoiItoa(n);
  }

  /** A query string: each key with its values, as `url.Values`. */
  type Query = map<string, seq<string>>

  /** `url.Values.Get`: the first value under the key, or "" when the key has none. */
  function QueryGet(qs: Query, key: string): (r: string)
    ensures key !in qs || |qs[key]| == 0 ==> r == ""
    ensures key in qs && |qs[key]| > 0 ==> r == qs[key][0]
  {
    if key in qs && |qs[key]| > 0 then qs[key][0] else ""
  }

  function ReadString(qs: Query, key: string, defaultValue: string): (r: string)
    ensures QueryGet(qs, key) == "" ==> r == defaultValue
    ensures QueryGet(qs, key) != "" ==> r == QueryGet(qs, key)
  {
    var value := QueryGet(qs, key);
    if value == "" then defaultValue else value
  }

  /** readString never returns "" unless the default is "", and an absent key always gives the default. */
  lemma ReadStringDefault(qs: Query, key: string, defaultValue: string)
    ensures defaultValue != "" ==> ReadString(qs, key, defaultValue) != ""
    ensures key !in qs ==> ReadString(qs, key, defaultValue) == defaultValue
  {
  }

  function ReadCsv(qs: Query, key: string, defaultValue: seq<string>): (r: seq<string>)
    ensures QueryGet(qs, key) == "" ==> r == defaultValue
    ensures QueryGet(qs, key) != "" ==> |r| >= 1 && forall i :: 0 <= i < |r| ==> ',' !in r[i]
  {
    var value := QueryGet(qs, key);
    if value == "" then defaultValue else Strings.Split(value, ',')
  }

  /** A non-empty value is recovered by joining readCSV's parts with commas. */
  lemma {:induction false} ReadCsvJoin(qs: Query, key: string, defaultValue: seq<string>)
    requires QueryGet(qs, key) != ""
    ensures Strings.Join(ReadCsv(qs, key, defaultValue), ',') == QueryGet(qs, key)
  {
    Strings.JoinSplit(QueryGet(qs, key), ',');
  }

  /** The value readInt returns. */
  function IntParam(qs: Query, key: string, defaultValue: int): (r: int)
    ensures Strconv.Atoi(QueryGet(qs, key)).Some? ==> r == Strconv.Atoi(QueryGet(qs, key)).value
    ensures Strconv.Atoi(QueryGet(qs, key)).None? ==> r == defaultValue
  {
    var value := QueryGet(qs, key);
    if value == "" then defaultValue
    else match Strconv.Atoi(value)
      case None => defaultValue
      case Some(n) => n
  }

  /** Whether readInt records an error: a value is present and is not an integer. */
  predicate IntParamInvalid(qs: Query, key: string) {
    QueryGet(qs, key) != "" && Strconv.Atoi(QueryGet(qs, key)).None?
  }

  /** readInt: the parsed value, or the default; a present non-integer value also records an error under key. */
  method ReadInt(qs: Query, key: string, defaultValue: int, v: Validator) returns (r: int)
    modifies v
    ensures r == IntParam(qs, key, defaultValue)
    ensures !IntParamInvalid(qs, key) ==> v.errors == old(v.errors)
    ensures IntParamInvalid(qs, key) ==> v.errors.Keys == old(v.errors).Keys + {key}
    ensures forall k :: k in old(v.errors) && k != key ==> v.errors[k] == old(v.errors)[k]
  {
    var value := QueryGet(qs, key);
    if value == "" {
      return defaultValue;
    }
    var parsed := Strconv.Atoi(value);
    if parsed.None? {
      v.AddError(key, NotIntegerMessage);
      return defaultValue;
    }
    return parsed.value;
  }
}
