/**
 * The single-token time-frame parser: `"<int><m|h|d>"` becomes a duration in
 * minutes; anything malformed becomes six hours. There is no upper bound and
 * no sign check on the count.
 */
module TimeDuration {
  import opened Basics
  import Strconv

  /** Six hours, in minutes. */
  const DefaultMinutes: int := 6 * 60

  predicate IsUnit(c: char) {
    c == 'm' || c == 'h' || c == 'd'
  }

  /** Minutes in one unit of m, h or d. */
  function UnitMinutes(c: char): (k: int)
    requires IsUnit(c)
    ensures k > 0
  {
    if c == 'm' then 1 else if c == 'h' then 60 else 60 * 24
  }

  /** A count the integer parser accepts, followed by one of the three unit letters. */
  predicate WellFormed(input: string) {
    |input| >= 2 && IsUnit(input[|input| - 1]) && Strconv.Atoi(input[..|input| - 1]).Some?
  }

  /** ValidateTimeDuration: a well-formed token is its count times its unit's minutes; anything else is six hours. */
  function ValidateTimeDuration(input: string): (minutes: int)
    ensures WellFormed(input) ==>
      minutes == Strconv.Atoi(input[..|input| - 1]).value * UnitMinutes(input[|input| - 1])
    ensures !WellFormed(input) ==> minutes == DefaultMinutes
  {
    if |input| < 2 then DefaultMinutes
    else
      var unit := input[|input| - 1];
      if unit != 'm' && unit != 'h' && unit != 'd' then DefaultMinutes
      else
        var valueStr := input[..|input| - 1];
        match Strconv.Atoi(valueStr)
        case None => DefaultMinutes
        case Some(value) =>
          match unit
          case 'm' => value
          case 'h' => value * 60
          case 'd' => value * 60 * 24
          case _ => DefaultMinutes
  }

  /**
   * The result depends on the last byte (the unit) and the bytes before it
   * (the count) only through these two tests; otherwise it is the default.
   */
  lemma Decompose(prefix: string, unit: char)
    requires |prefix| >= 1
    ensures ValidateTimeDuration(prefix + [unit]) ==
      if IsUnit(unit) && Strconv.Atoi(prefix).Some?
      then Strconv.Atoi(prefix).value * UnitMinutes(unit)
      else DefaultMinutes
  {
  }

  /** Every malformed token falls back to six hours. */
  lemma MalformedIsDefault(input: string)
    requires || |input| < 2
             || !IsUnit(input[|input| - 1])
             || Strconv.Atoi(input[..|input| - 1]).None?
    ensures ValidateTimeDuration(input) == DefaultMinutes
  {
  }

  /** A well-formed token converts exactly, whatever its sign or size. */
  lemma {:induction false} WellFormedConvertsExactly(n: int, unit: char)
    requires IsUnit(unit)
    ensures ValidateTimeDuration(Strconv.Itoa(n) + [unit]) == n * UnitMinutes(unit)
  {
    Strconv.AtoiItoa(n);
    Decompose(Strconv.Itoa(n), unit);
  }

  /**
   * Every result is the default or the token's count times its unit: the
   * `default` arm of the unit switch is never what decides the result.
   */
  lemma DefaultOrMultiple(input: string)
    ensures var r := ValidateTimeDuration(input);
      || r == DefaultMinutes
      || (&& |input| >= 2 && IsUnit(input[|input| - 1])
          && Strconv.Atoi(input[..|input| - 1]).Some?
          && r == Strconv.Atoi(input[..|input| - 1]).value * UnitMinutes(input[|input| - 1]))
  {
  }

  /** No clamp: for every bound there is a token whose duration exceeds it. */
  lemma {:induction false} NoUpperBound(bound: int)
    ensures ValidateTimeDuration(Strconv.Itoa(bound + 1) + "m") > bound
  {
    WellFormedConvertsExactly(bound + 1, 'm');
  }

  /** No sign check: a negative count is converted as is. */
  lemma {:induction false} NegativeCountConverted()
    ensures ValidateTimeDuration("-5m") == -5
  {
    WellFormedConvertsExactly(-5, 'm');
    assert Strconv.Itoa(-5) == "-5";
  }

  /** The inputs of the repository's unit test and their expected durations. */
  lemma {:induction false} TestVectors()
    ensures ValidateTimeDuration("10m") == 10
    ensures ValidateTimeDuration("5h") == 5 * 60
    ensures ValidateTimeDuration("3d") == 3 * 24 * 60
    ensures ValidateTimeDuration("abc") == DefaultMinutes
    ensures ValidateTimeDuration("2w") == DefaultMinutes
    ensures ValidateTimeDuration("2 h") == DefaultMinutes
    ensures ValidateTimeDuration("20") == DefaultMinutes
  {
    WellFormedConvertsExactly(10, 'm');
    assert Strconv.NatToString(10) == Strconv.NatToString(1) + [Strconv.DigitChar(0)] == "10";
    assert Strconv.Itoa(10) + ['m'] == "10m";
    WellFormedConvertsExactly(5, 'h');
    assert Strconv.Itoa(5) == "5";
    WellFormedConvertsExactly(3, 'd');
    assert Strconv.Itoa(3) == "3";
    assert "2 h"[..2] == "2 " && !Strconv.IsDigit(' ');
  }
}
