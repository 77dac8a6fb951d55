/**
 * Exact arithmetic standing in for the JavaScript number operations of the
 * list renderer: `Math.ceil`, `parseInt` of a quotient, the sums of the
 * measurement loops, and `Number.prototype.toString` on integers.
 */
module Numeric {

  function Min(a: int, b: int): (m: int)
  {
    if a <= b then a else b
  }

  function MaxReal(a: real, b: real): (m: real)
  {
    if a >= b then a else b
  }

  /** `Math.ceil`: the least integer that is not below `x`. */
  function Ceil(x: real): (c: int)
    ensures x <= c as real < x + 1.0
  {
    -((-x).Floor)
  }

  /** `parseInt(x, 10)` of a finite quotient: the integer part, truncated toward zero. */
  function Trunc(x: real): (t: int)
    ensures x >= 0.0 ==> 0 <= t && t as real <= x < t as real + 1.0
    ensures x < 0.0 ==> t <= 0 && t as real - 1.0 < x <= t as real
  {
    if x >= 0.0 then x.Floor else -((-x).Floor)
  }

  /**
   * A JavaScript number that is an integer or NaN, as `parseInt` returns and
   * arithmetic on NaN keeps. Every comparison with NaN is false.
   */
  datatype IntOrNaN = Int(value: int) | NaN

  /** The number of times `for (i = 0; i < x; i++)` runs its body for a non-negative start. */
  function Iterations(x: IntOrNaN): (n: nat)
    ensures x.Int? && x.value > 0 ==> n == x.value
    ensures x.NaN? || x.value <= 0 ==> n == 0
  {
    if x.Int? && x.value > 0 then x.value else 0
  }

  /** The sum that the `forEach` accumulator loops compute. */
  function Sum(s: seq<nat>): (total: nat)
  {
    if s == [] then 0 else Sum(s[..|s| - 1]) + s[|s| - 1]
  }

  lemma {:induction false} SumZero(s: seq<nat>)
    ensures Sum(s) == 0 <==> forall i :: 0 <= i < |s| ==> s[i] == 0
  {
    if s != [] {
      SumZero(s[..|s| - 1]);
      assert forall i :: 0 <= i < |s| - 1 ==> s[..|s| - 1][i] == s[i];
    }
  }

  /** `|s| * lo <= Sum(s) <= |s| * hi` when every element lies in `[lo, hi]`. */
  lemma {:induction false} SumBounds(s: seq<nat>, lo: nat, hi: nat)
    requires forall i :: 0 <= i < |s| ==> lo <= s[i] <= hi
    ensures |s| * lo <= Sum(s) <= |s| * hi
  {
    if s != [] {
      var init := s[..|s| - 1];
      assert forall i :: 0 <= i < |init| ==> init[i] == s[i];
      SumBounds(init, lo, hi);
      assert |s| * lo == |init| * lo + lo;
      assert |s| * hi == |init| * hi + hi;
    }
  }

  /** Multiplying a strict inequality by a positive factor. */
  lemma ScaleStrict(a: real, b: real, k: real)
    requires a < b && k > 0.0
    ensures a * k < b * k
  {
    assert (b - a) * k > 0.0;
  }

  /** Dividing bounds `n * lo <= total <= n * hi` by a positive `n`. */
  lemma QuotientBounds(total: real, n: real, lo: real, hi: real)
    requires n > 0.0
    requires n * lo <= total <= n * hi
    ensures lo <= total / n <= hi
  {
    var q := total / n;
    assert total == n * q;
    assert n * (q - lo) >= 0.0;
    assert n * (hi - q) >= 0.0;
  }

  /** The mean of a non-empty sequence whose elements all equal `v` is `v`. */
  lemma MeanOfUniform(s: seq<nat>, v: nat)
    requires |s| > 0
    requires forall i :: 0 <= i < |s| ==> s[i] == v
    ensures Sum(s) as real / |s| as real == v as real
  {
    SumBounds(s, v, v);
    var n := |s| as real;
    assert Sum(s) as real == n * v as real;
  }

  // Decimal notation of integers, as `toString()` writes them.

  function DigitChar(d: nat): (c: char)
    requires d < 10
  {
    ('0' as int + d) as char
  }

  function DigitValue(c: char): (d: nat)
  {
    if '0' <= c <= '9' then c as int - '0' as int else 0
  }

  predicate IsDigit(c: char)
  {
    '0' <= c <= '9'
  }

  /** The digits of `n`, most significant first, without leading zeros. */
  function NatDigits(n: nat): (s: string)
    decreases n
  {
    if n < 10 then [DigitChar(n)] else NatDigits(n / 10) + [DigitChar(n % 10)]
  }

  /** `n.toString()` for an integer `n`: a minus sign for negatives, then the digits. */
  function DecimalString(n: int): (s: string)
  {
    if n < 0 then "-" + NatDigits(-n) else NatDigits(n)
  }

  /** Reads a string of decimal digits back as a number (the inverse of `NatDigits`). */
  function ParseDigits(s: string): (n: nat)
  {
    if s == [] then 0 else ParseDigits(s[..|s| - 1]) * 10 + DigitValue(s[|s| - 1])
  }

  /** Reads an optional minus sign and decimal digits back as an integer. */
  function ParseDecimal(s: string): (n: int)
  {
    if |s| > 0 && s[0] == '-' then -(ParseDigits(s[1..]) as int) else ParseDigits(s)
  }

  function Pow10(k: nat): (p: nat)
    ensures p >= 1
  {
    if k == 0 then 1 else 10 * Pow10(k - 1)
  }

  function Abs(n: int): (a: nat)
  {
    if n < 0 then -n else n
  }

  /**
   * The digits of `n` are decimal digits, as many as `n` has (no leading
   * zero, and `10^(k-1) <= n < 10^k` for `k` digits), and read back as `n`.
   */
  lemma {:induction false} NatDigitsRoundTrip(n: nat)
    ensures |NatDigits(n)| >= 1
    ensures forall i :: 0 <= i < |NatDigits(n)| ==> IsDigit(NatDigits(n)[i])
    ensures ParseDigits(NatDigits(n)) == n
    ensures n > 0 ==> NatDigits(n)[0] != '0'
    ensures n < Pow10(|NatDigits(n)|)
    ensures |NatDigits(n)| > 1 ==> Pow10(|NatDigits(n)| - 1) <= n
    decreases n
  {
    if n >= 10 {
      NatDigitsRoundTrip(n / 10);
      var init := NatDigits(n / 10);
      var k := |init|;
      assert NatDigits(n)[..|NatDigits(n)| - 1] == init;
      assert NatDigits(n)[0] == init[0];
      assert n == 10 * (n / 10) + n % 10;
      assert n / 10 + 1 <= Pow10(k);
      assert Pow10(k + 1) == 10 * Pow10(k);
      if k > 1 {
        assert Pow10(k) == 10 * Pow10(k - 1);
      }
    }
  }

  /**
   * `n.toString()` is the canonical decimal form of the integer: a minus sign
   * exactly for negatives, then the digits of `|n|` without a leading zero; it
   * reads back as `n`.
   */
  lemma DecimalRoundTrip(n: int)
    ensures |DecimalString(n)| >= 1
    ensures ParseDecimal(DecimalString(n)) == n
    ensures DecimalString(n)[0] == '-' <==> n < 0
    ensures |DecimalString(n)| == (if n < 0 then 1 else 0) + |NatDigits(Abs(n))|
    ensures n != 0 ==> DecimalString(n)[if n < 0 then 1 else 0] != '0'
  {
    if n < 0 {
      NatDigitsRoundTrip(-n);
      assert DecimalString(n)[1..] == NatDigits(-n);
    } else {
      NatDigitsRoundTrip(n);
      assert IsDigit(NatDigits(n)[0]);
    }
  }

  // UTF-16 lengths, as `String.prototype.length` counts them.

  /** The number of UTF-16 code units of a character: two for one above U+FFFF. */
  function Utf16Units(c: char): (u: nat)
    ensures u == 1 || u == 2
  {
    if c as int > 0xFFFF then 2 else 1
  }

  /** `s.length`: the UTF-16 code units of `s`. */
  function Utf16Length(s: string): (n: nat)
    ensures |s| <= n <= 2 * |s|
  {
    if s == [] then 0 else Utf16Length(s[..|s| - 1]) + Utf16Units(s[|s| - 1])
  }

  /**
   * A string has between one and two code units per character: exactly one
   * each when it stays in the Basic Multilingual Plane, exactly two each when
   * every character lies above it.
   */
  lemma {:induction false} Utf16LengthBounds(s: string)
    ensures |s| <= Utf16Length(s) <= 2 * |s|
    ensures Utf16Length(s) == |s| <==> forall i :: 0 <= i < |s| ==> s[i] as int <= 0xFFFF
    ensures Utf16Length(s) == 2 * |s| <==> forall i :: 0 <= i < |s| ==> s[i] as int > 0xFFFF
  {
    if s != [] {
      var init := s[..|s| - 1];
      Utf16LengthBounds(init);
      assert forall i :: 0 <= i < |init| ==> init[i] == s[i];
    }
  }

  /** Decimal strings are ASCII, so their UTF-16 length is their length. */
  lemma DecimalUtf16Length(n: int)
    ensures Utf16Length(DecimalString(n)) == |DecimalString(n)|
  {
    NatDigitsRoundTrip(Abs(n));
    var s := DecimalString(n);
    forall i | 0 <= i < |s|
      ensures s[i] as int <= 0xFFFF
    {
      if n < 0 && i == 0 {
      } else if n < 0 {
        assert s[i] == NatDigits(Abs(n))[i - 1];
      } else {
        assert s[i] == NatDigits(Abs(n))[i];
      }
    }
    Utf16LengthBounds(s);
  }
}
