/**
 * `format_timestamp` (interface.py) over exact real seconds, together with
 * the two number conversions the renderers apply before it: Python's
 * `round(x, d)` and `int(x)`.
 */
module Timestamp {
  import opened Numerals

  /** Python's float `x % m` for `m > 0`: the remainder has the sign of the divisor. */
  function FloatMod(x: real, m: real): (r: real)
    requires m > 0.0
    ensures 0.0 <= r < m
    ensures x == m * (x / m).Floor as real + r
  {
    var q := (x / m).Floor;
    QuotientFloor(x, m, q);
    x - m * q as real
  }

  /** The floor of a quotient brackets the dividend between two multiples of the divisor. */
  lemma QuotientFloor(x: real, m: real, q: int)
    requires m > 0.0 && q == (x / m).Floor
    ensures m * q as real <= x < m * q as real + m
  {
    MulLe(q as real, x / m, m);
    MulLt(x / m, q as real + 1.0, m);
    DivMul(x, m);
  }

  lemma MulLe(a: real, b: real, m: real)
    requires m > 0.0 && a <= b
    ensures a * m <= b * m
  {}

  lemma MulLt(a: real, b: real, m: real)
    requires m > 0.0 && a < b
    ensures a * m < b * m
  {}

  lemma DivMul(x: real, m: real)
    requires m != 0.0
    ensures (x / m) * m == x && (x * m) / m == x
  {}

  lemma DivLe(a: real, b: real, m: real)
    requires m > 0.0 && a <= b
    ensures a / m <= b / m
  {}

  lemma DivLt(a: real, b: real, m: real)
    requires m > 0.0 && a < b
    ensures a / m < b / m
  {}

  lemma DivAdd(a: real, b: real, m: real)
    requires m != 0.0
    ensures (a + b) / m == a / m + b / m && (a - b) / m == a / m - b / m
  {}

  lemma IntMulReal(a: int, b: int)
    ensures (a * b) as real == a as real * b as real
  {}

  /** `int(seconds // 60)`: whole minutes, rounded down. */
  function Minutes(seconds: real): int
  {
    (seconds / 60.0).Floor
  }

  /** `int(seconds % 60)`: the whole seconds within the minute. */
  function SecondOfMinute(seconds: real): int
  {
    FloatMod(seconds, 60.0).Floor
  }

  /**
   * `int(seconds * milliseconds % milliseconds)`: the fraction of a second
   * counted in units of 1/milliseconds (`milliseconds` is 10^d).
   */
  function Fraction(seconds: real, milliseconds: nat): int
    requires milliseconds >= 1
  {
    FloatMod(seconds * milliseconds as real, milliseconds as real).Floor
  }

  /** `format_timestamp(seconds, decimal_places)`: `MM:SS.F…` with every field truncated and zero-padded. */
  function FormatTimestamp(seconds: real, decimalPlaces: nat := 2): string
  {
    FormatInt(Minutes(seconds), 2) + ":" + FormatInt(SecondOfMinute(seconds), 2) + "."
      + FormatInt(Fraction(seconds, Pow10(decimalPlaces)), decimalPlaces)
  }

  /** What a timestamp denotes when read back as minutes * 60 + seconds + fraction / scale. */
  function ReadBack(minutes: int, second: int, fraction: int, scale: nat): real
    requires scale >= 1
  {
    (minutes * 60 + second) as real + fraction as real / scale as real
  }

  /** The seconds field lies in 0..59 and, after the minutes, completes the whole seconds. */
  lemma MinuteFields(seconds: real)
    ensures 0 <= SecondOfMinute(seconds) < 60
    ensures Minutes(seconds) * 60 + SecondOfMinute(seconds) == seconds.Floor
  {
    QuotientFloor(seconds, 60.0, Minutes(seconds));
  }

  /**
   * The fraction field lies in 0..scale - 1 and, after the whole seconds,
   * completes `floor(seconds * scale)`.
   */
  lemma FractionFields(seconds: real, scale: nat)
    requires scale >= 1
    ensures 0 <= Fraction(seconds, scale) < scale
    ensures seconds.Floor * scale + Fraction(seconds, scale) == (seconds * scale as real).Floor
  {
    assert Fraction(seconds, scale) == FloatMod(seconds * scale as real, scale as real).Floor;
    ScaledRemainder(seconds * scale as real, seconds, scale as real, scale);
  }

  lemma ScaledRemainder(y: real, x: real, m: real, scale: int)
    requires scale >= 1 && m == scale as real && y == x * m
    ensures FloatMod(y, m).Floor == y.Floor - x.Floor * scale
  {
    assert (y / m).Floor == x.Floor by { DivMul(x, m); }
    assert m * x.Floor as real == (x.Floor * scale) as real by { IntMulReal(x.Floor, scale); }
    FloorShift(y, x.Floor * scale);
  }

  lemma FloorShift(y: real, k: int)
    ensures (y - k as real).Floor == y.Floor - k
  {}

  /**
   * For `seconds >= 0` the output is: at least two minute digits, `:`,
   * exactly two second digits (below 60), `.`, exactly `d` fraction digits
   * (one when `d` is 0).
   */
  lemma TimestampShape(seconds: real, decimalPlaces: nat)
    returns (mm: string, ss: string, ff: string)
    requires seconds >= 0.0
    ensures FormatTimestamp(seconds, decimalPlaces) == mm + ":" + ss + "." + ff
    ensures AllDigits(mm) && |mm| >= 2 && DigitsValue(mm) == Minutes(seconds) && (|mm| > 2 ==> mm[0] != '0')
    ensures AllDigits(ss) && |ss| == 2 && DigitsValue(ss) == SecondOfMinute(seconds) < 60
    ensures AllDigits(ff) && |ff| == (if decimalPlaces == 0 then 1 else decimalPlaces)
    ensures DigitsValue(ff) == Fraction(seconds, Pow10(decimalPlaces))
  {
    MinuteFields(seconds);
    FractionFields(seconds, Pow10(decimalPlaces));
    QuotientFloor(seconds, 60.0, Minutes(seconds));
    mm := FormatInt(Minutes(seconds), 2);
    ss := FormatInt(SecondOfMinute(seconds), 2);
    ff := FormatInt(Fraction(seconds, Pow10(decimalPlaces)), decimalPlaces);
    FormatIntDigits(Minutes(seconds), 2);
    FormatIntDigits(SecondOfMinute(seconds), 2);
    FormatIntDigits(Fraction(seconds, Pow10(decimalPlaces)), decimalPlaces);
    NatToStringLength(SecondOfMinute(seconds), 2);
    if decimalPlaces > 0 {
      NatToStringLength(Fraction(seconds, Pow10(decimalPlaces)), decimalPlaces);
    }
  }

  /** The fields read back give exactly `floor(seconds * scale) / scale`. */
  lemma TruncatedValue(seconds: real, scale: nat)
    requires scale >= 1
    ensures ReadBack(Minutes(seconds), SecondOfMinute(seconds), Fraction(seconds, scale), scale)
            == (seconds * scale as real).Floor as real / scale as real
  {
    MinuteFields(seconds);
    FractionFields(seconds, scale);
    TruncationArith(seconds, scale as real, scale, seconds * scale as real,
                    seconds.Floor, Fraction(seconds, scale), (seconds * scale as real).Floor);
  }

  /**
   * Truncation: the value the fields read back is at most `seconds` and
   * less than 1/scale below it.
   */
  lemma Truncation(seconds: real, scale: nat)
    requires scale >= 1
    ensures var v := ReadBack(Minutes(seconds), SecondOfMinute(seconds), Fraction(seconds, scale), scale);
            v <= seconds < v + 1.0 / scale as real
  {
    TruncatedValue(seconds, scale);
    FloorBounds(seconds, scale);
  }

  /** `floor(x * scale) / scale` is at most `x` and less than 1/scale below it. */
  lemma FloorBounds(x: real, scale: nat)
    requires scale >= 1
    ensures var v := (x * scale as real).Floor as real / scale as real;
            v <= x < v + 1.0 / scale as real
  {
    var m, y := scale as real, x * scale as real;
    DivLe(y.Floor as real, y, m);
    DivLt(y, y.Floor as real + 1.0, m);
    DivAdd(y.Floor as real, 1.0, m);
    DivMul(x, m);
  }

  lemma TruncationArith(x: real, m: real, scale: int, y: real, whole: int, f: int, k: int)
    requires scale >= 1 && m == scale as real && y == x * m && k == y.Floor
    requires whole * scale + f == k
    ensures whole as real + f as real / m == k as real / m
  {
    assert (whole * scale) as real == whole as real * m by { IntMulReal(whole, scale); }
    assert (whole as real * m) / m == whole as real by { DivMul(whole as real, m); }
    DivAdd(whole as real * m, f as real, m);
  }

  /** Python's `round(y)` on an exact value: the nearest integer, ties to the even one. */
  function RoundHalfEven(y: real): (n: int)
    ensures y - 0.5 <= n as real <= y + 0.5
    ensures (n as real - y == 0.5 || y - n as real == 0.5) ==> n % 2 == 0
  {
    var f := y.Floor;
    var rest := y - f as real;
    if rest < 0.5 then f
    else if rest > 0.5 then f + 1
    else if f % 2 == 0 then f
    else f + 1
  }

  /**
   * Python's `round(x, d)` on an exact value, with `scale` = 10^d: the
   * nearest multiple of 1/scale, ties to the even one.
   */
  function RoundIn(x: real, scale: nat): real
    requires scale >= 1
  {
    RoundHalfEven(x * scale as real) as real / scale as real
  }

  /** The rounded value is a whole number of 1/scale units, the nearest one to `x`. */
  lemma RoundInNearest(x: real, scale: nat)
    requires scale >= 1
    ensures RoundIn(x, scale) * scale as real == RoundHalfEven(x * scale as real) as real
    ensures x - 0.5 / scale as real <= RoundIn(x, scale) <= x + 0.5 / scale as real
  {
    RoundArith(x, scale as real, x * scale as real, RoundHalfEven(x * scale as real));
  }

  lemma RoundArith(x: real, m: real, y: real, n: int)
    requires m > 0.0 && y == x * m && y - 0.5 <= n as real <= y + 0.5
    ensures (n as real / m) * m == n as real
    ensures x - 0.5 / m <= n as real / m <= x + 0.5 / m
  {
    DivMul(n as real, m);
    DivMul(x, m);
    DivLe(y - 0.5, n as real, m);
    DivLe(n as real, y + 0.5, m);
    DivAdd(y, 0.5, m);
  }

  /** Python's `int(x)` on a float: truncation toward zero. */
  function Trunc(x: real): (n: int)
    ensures x >= 0.0 ==> n as real <= x < n as real + 1.0
    ensures x < 0.0 ==> n as real - 1.0 < x <= n as real
  {
    if x >= 0.0 then x.Floor else -((-x).Floor)
  }

  /** A value that is a whole number of 1/scale units reads back exactly. */
  lemma ExactReadBack(r: real, scale: nat, n: int)
    requires scale >= 1 && r * scale as real == n as real
    ensures ReadBack(Minutes(r), SecondOfMinute(r), Fraction(r, scale), scale) == r
  {
    TruncatedValue(r, scale);
    ExactArith(r, scale, n);
  }

  lemma ExactArith(r: real, scale: nat, n: int)
    requires scale >= 1 && r * scale as real == n as real
    ensures (r * scale as real).Floor as real / scale as real == r
  {
    DivMul(r, scale as real);
  }

  /**
   * A value rounded to a multiple of 1/scale is rendered without loss: its
   * fields read back to the rounded value itself.
   */
  lemma RoundedTimestampExact(x: real, scale: nat)
    requires scale >= 1
    ensures ReadBack(Minutes(RoundIn(x, scale)), SecondOfMinute(RoundIn(x, scale)),
                     Fraction(RoundIn(x, scale), scale), scale) == RoundIn(x, scale)
  {
    RoundInNearest(x, scale);
    ExactReadBack(RoundIn(x, scale), scale, RoundHalfEven(x * scale as real));
  }

  /** `int(round(o, 3) * 1000.0)` is exactly the rounded number of milliseconds. */
  lemma RoundedMilliseconds(o: real)
    ensures Trunc(RoundIn(o, 1000) * 1000.0) == RoundHalfEven(o * 1000.0)
  {
    RoundInNearest(o, 1000);
  }
}
