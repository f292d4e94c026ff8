/**
 * Decimal rendering of integers as Python's `str(n)` and `format(n, '0<w>d')`
 * produce it, and the reading-back of digit strings that the proofs use.
 */
module Numerals {

  predicate IsDigit(c: char) { '0' <= c <= '9' }

  predicate AllDigits(s: string) { forall i :: 0 <= i < |s| ==> IsDigit(s[i]) }

  function DigitValue(c: char): (v: nat)
    requires IsDigit(c)
    ensures v < 10
  {
    c as int - '0' as int
  }

  function DigitChar(v: nat): char
    requires v < 10
  {
    ('0' as int + v) as char
  }

  lemma DigitCharValue(v: nat)
    requires v < 10
    ensures IsDigit(DigitChar(v)) && DigitValue(DigitChar(v)) == v
  {
  }

  /** The number a string of decimal digits denotes, most significant digit first. */
  function DigitsValue(s: string): nat
    requires AllDigits(s)
  {
    if s == [] then 0 else DigitsValue(s[..|s| - 1]) * 10 + DigitValue(s[|s| - 1])
  }

  /** Python `str(n)` for `n >= 0`: the shortest decimal numeral of `n`. */
  function NatToString(n: nat): string
    decreases n
  {
    if n < 10 then [DigitChar(n)] else NatToString(n / 10) + [DigitChar(n % 10)]
  }

  /** Python `str(n)` for any integer: a minus sign in front of a negative value. */
  function IntToString(n: int): string
  {
    if n < 0 then "-" + NatToString(-n) else NatToString(n)
  }

  /** `k` copies of the digit zero. */
  function Zeros(k: nat): (z: string)
    ensures |z| == k
  {
    if k == 0 then [] else Zeros(k - 1) + "0"
  }

  /** Digits padded on the left with zeros up to `width` characters (unchanged when already that long). */
  function ZeroPad(digits: string, width: int): string
  {
    if |digits| >= width then digits else Zeros(width - |digits|) + digits
  }

  /** Python `format(n, '0<width>d')`: a negative value keeps its sign and pads the rest to width - 1. */
  function FormatInt(n: int, width: int): string
  {
    if n < 0 then "-" + ZeroPad(NatToString(-n), width - 1) else ZeroPad(NatToString(n), width)
  }

  /** `str(n)` is a non-empty numeral denoting `n`, with no leading zero. */
  lemma {:induction false} NatToStringDigits(n: nat)
    ensures var s := NatToString(n);
            |s| >= 1 && AllDigits(s) && DigitsValue(s) == n && (s[0] == '0' ==> s == "0")
    decreases n
  {
    DigitCharValue(n % 10);
    if n >= 10 {
      NatToStringDigits(n / 10);
      var front := NatToString(n / 10);
      var s := front + [DigitChar(n % 10)];
      assert s[..|front|] == front;
      assert s[0] == front[0];
    }
  }

  /** `str(n)` is the numeral of `n`, preceded by `-` exactly when `n` is negative. */
  lemma IntToStringDigits(n: int)
    ensures var s := IntToString(n);
            (n >= 0 ==> |s| >= 1 && AllDigits(s) && DigitsValue(s) == n && (s[0] == '0' ==> s == "0"))
            && (n < 0 ==> |s| >= 2 && s[0] == '-' && AllDigits(s[1..]) && DigitsValue(s[1..]) == -n && s[1] != '0')
  {
    if n < 0 {
      NatToStringDigits(-n);
      assert IntToString(n)[1..] == NatToString(-n);
    } else {
      NatToStringDigits(n);
    }
  }

  /** Zero padding keeps the digits at the end, the value, and reaches the width. */
  lemma ZeroPadDigits(digits: string, width: int)
    requires AllDigits(digits)
    ensures var r := ZeroPad(digits, width);
            AllDigits(r) && DigitsValue(r) == DigitsValue(digits)
            && |r| == (if |digits| >= width then |digits| else width)
            && r[|r| - |digits|..] == digits
            && (|digits| >= width ==> r == digits)
  {
    if |digits| < width {
      var r := Zeros(width - |digits|) + digits;
      LeadingZerosValue(width - |digits|, digits);
      assert r[|r| - |digits|..] == digits;
    }
  }

  /** `format(n, '0<width>d')` denotes `n`, is at least `width` long, and carries a sign only when `n < 0`. */
  lemma FormatIntDigits(n: int, width: int)
    ensures var s := FormatInt(n, width);
            (n >= 0 ==> AllDigits(s) && DigitsValue(s) == n && |s| >= width && |s| >= 1
                        && (|s| > width && |s| > 1 ==> s[0] != '0'))
            && (n < 0 ==> |s| >= 2 && s[0] == '-' && AllDigits(s[1..]) && DigitsValue(s[1..]) == -n && |s| >= width
                          && (|s| > width ==> s[1] != '0'))
  {
    if n < 0 {
      NegativeFormat(-n, width);
    } else {
      NatToStringDigits(n);
      ZeroPadDigits(NatToString(n), width);
    }
  }

  /** `format(-k, '0<width>d')` for `k > 0`: a sign, then `k` padded to width - 1, with no extra zero. */
  lemma NegativeFormat(k: nat, width: int)
    requires k > 0
    ensures var s := FormatInt(-(k as int), width);
            |s| >= 2 && s[0] == '-' && AllDigits(s[1..]) && DigitsValue(s[1..]) == k && |s| >= width
            && (|s| > width ==> s[1] != '0')
  {
    var digits := NatToString(k);
    NatToStringDigits(k);
    ZeroPadDigits(digits, width - 1);
    var s := FormatInt(-(k as int), width);
    assert s == "-" + ZeroPad(digits, width - 1);
    assert s[1..] == ZeroPad(digits, width - 1);
    if |s| > width {
      assert s[1] == digits[0];
    }
  }

  lemma {:induction false} ZerosValue(k: nat)
    ensures AllDigits(Zeros(k)) && DigitsValue(Zeros(k)) == 0
  {
    if k > 0 {
      ZerosValue(k - 1);
      assert Zeros(k)[..k - 1] == Zeros(k - 1);
    }
  }

  /** Leading zeros do not change the value of a numeral. */
  lemma {:induction false} LeadingZerosValue(k: nat, s: string)
    requires AllDigits(s)
    ensures AllDigits(Zeros(k) + s) && DigitsValue(Zeros(k) + s) == DigitsValue(s)
  {
    var t := Zeros(k) + s;
    ZerosValue(k);
    if s == [] {
      assert t == Zeros(k);
    } else {
      var init := s[..|s| - 1];
      assert t[..|t| - 1] == Zeros(k) + init;
      LeadingZerosValue(k, init);
    }
  }

  /** A numeral of `w` digits denotes a number below 10^w. */
  lemma {:induction false} DigitsValueBound(s: string)
    requires AllDigits(s)
    ensures DigitsValue(s) < Pow10(|s|)
  {
    if s != [] {
      DigitsValueBound(s[..|s| - 1]);
    }
  }

  /** A number below 10^w, for w >= 1, has a numeral of at most w digits. */
  lemma {:induction false} NatToStringLength(n: nat, w: nat)
    requires w >= 1 && n < Pow10(w)
    ensures |NatToString(n)| <= w
  {
    if n >= 10 {
      assert w >= 2;
      NatToStringLength(n / 10, w - 1);
      assert |NatToString(n)| == |NatToString(n / 10)| + 1;
    }
  }

  function Pow10(d: nat): (p: nat)
    ensures p >= 1
  {
    if d == 0 then 1 else 10 * Pow10(d - 1)
  }
}
