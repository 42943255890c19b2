/**
 * Reading the requested number of teams from the body of a generate-teams request:
 * a falsy or non-numeric value becomes 2, anything else goes through parseInt(_, 10),
 * which reads the value's string form.
 */
module Parsing {

  /** m * 10^e for any integer exponent, one power of ten at a time; the sign of m is kept. */
  function Scaled(m: real, e: int): (v: real)
    ensures m > 0.0 ==> v > 0.0
    ensures m < 0.0 ==> v < 0.0
    decreases if e >= 0 then e else -e
  {
    if e == 0 then m else if e > 0 then 10.0 * Scaled(m, e - 1) else Scaled(m, e + 1) / 10.0
  }

  /** The significand of a number written in scientific notation: 0, or at least 1 and below 10 in magnitude. */
  type Mantissa = m: real | m == 0.0 || 1.0 <= m < 10.0 || -10.0 < m <= -1.0

  /**
   * What the client sent as `numberOfTeams`.
   * Absent: undefined, null, false or the empty string (all falsy).
   * NotANumber: a value for which isNaN holds (NaN, "abc", "3 teams", ...).
   * Number: the JSON number mantissa * 10^exponent (falsy exactly when it is 0).
   * NumericText: a non-empty string in plain decimal notation with a digit before any point
   * (always truthy, "0" included).
   */
  datatype TeamCountInput =
    | Absent
    | NotANumber
    | Number(mantissa: Mantissa, exponent: int)
    | NumericText(text: real)

  /** The value of a JSON number. */
  function NumberValue(input: TeamCountInput): real
    requires input.Number?
  {
    Scaled(input.mantissa, input.exponent)
  }

  /**
   * String(v) of a non-zero number v = m * 10^e switches to exponent notation ("1e-7",
   * "1.5e+21") when e >= 21 or e <= -7, and writes the plain decimal otherwise.
   */
  predicate ExponentForm(e: int)
  {
    e >= 21 || e <= -7
  }

  /** parseInt of a plain decimal number: its integer part, truncated toward zero. */
  function Truncate(v: real): (n: int)
    ensures v >= 0.0 ==> n as real <= v < (n + 1) as real
    ensures v < 0.0 ==> (n - 1) as real < v <= n as real
  {
    if v >= 0.0 then v.Floor else -((-v).Floor)
  }

  predicate Falsy(input: TeamCountInput)
  {
    input.Absent? || (input.Number? && input.mantissa == 0.0)
  }

  /**
   * The parsed count. parseInt reads the string form of a number: in plain notation that is
   * the truncated value; in exponent notation it stops at the point or the "e" of the
   * mantissa, so the count is the mantissa's leading digit, with its sign.
   */
  function TeamCount(input: TeamCountInput): (n: int)
    ensures Falsy(input) || input.NotANumber? ==> n == 2
    ensures input.Number? && input.mantissa != 0.0 && !ExponentForm(input.exponent) ==> n == Truncate(NumberValue(input))
    ensures input.Number? && input.mantissa != 0.0 && ExponentForm(input.exponent) ==>
      1 <= (if n < 0 then -n else n) <= 9 && (n > 0 <==> input.mantissa > 0.0)
    ensures input.Number? && input.mantissa != 0.0 && ExponentForm(input.exponent) ==> n == Truncate(input.mantissa)
    ensures input.NumericText? ==> n == Truncate(input.text)
  {
    match input
    case Absent => 2
    case NotANumber => 2
    case Number(m, e) =>
      if m == 0.0 then 2
      else if ExponentForm(e) then Truncate(m)
      else Truncate(NumberValue(input))
    case NumericText(v) => Truncate(v)
  }

  /**
   * The balancing loop only terminates for a count of at least one team. The parsed count is
   * below one exactly when the client sent a non-zero number below 1 other than a positive one
   * printed in exponent notation (0.5, -3, -1e-7, but not 1e-7), or numeric text below 1
   * ("0", "0.5", "-3"): the default of 2 is never below one.
   */
  lemma TeamCountBelowOne(input: TeamCountInput)
    ensures TeamCount(input) < 1 <==>
      (input.Number? && input.mantissa != 0.0 && NumberValue(input) < 1.0 &&
        !(ExponentForm(input.exponent) && input.mantissa > 0.0)) ||
      (input.NumericText? && input.text < 1.0)
  {
    match input
    case Absent =>
    case NotANumber =>
    case Number(m, e) =>
      if m > 0.0 && !ExponentForm(e) {
        var n := Truncate(NumberValue(input));
        if NumberValue(input) >= 1.0 { assert n >= 1; }
      }
    case NumericText(v) =>
      var n := Truncate(v);
      if v >= 1.0 { assert n >= 1; }
  }

  /** 1e-7 and 1e21 both parse to one team; 0.5 parses to none; 25.5 parses to 25. */
  lemma ExponentFormCounts()
    ensures TeamCount(Number(1.0, -7)) == 1
    ensures TeamCount(Number(1.0, 21)) == 1
    ensures TeamCount(Number(5.0, -1)) == 0
    ensures TeamCount(Number(2.55, 1)) == 25
  {
    assert Scaled(5.0, -1) == 0.5;
    assert Scaled(2.55, 1) == 25.5;
  }
}
