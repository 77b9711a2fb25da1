/**
  Decimal rendering of non-negative integers and left padding with '0'.
  Both variants print numbers the same way: JavaScript's `"" + n` and Go's
  `fmt.Sprintf("%d", n)` give the shortest decimal form of a non-negative
  integer below 10^21 (JavaScript switches to exponent notation from there).
 */
module Text {

  predicate IsDigit(c: char) { '0' <= c <= '9' }

  predicate AllDigits(s: string) { forall i | 0 <= i < |s| :: IsDigit(s[i]) }

  function DigitValue(c: char): (d: nat)
    requires IsDigit(c)
    ensures d < 10
  {
    c as int - '0' as int
  }

  function DigitChar(d: nat): (c: char)
    requires d < 10
    ensures IsDigit(c) && DigitValue(c) == d
  {
    ('0' as int + d) as char
  }

  /** The decimal form of n: non-empty, digits only, no leading zero unless n is 0. */
  function DecimalString(n: nat): (s: string)
    ensures |s| > 0 && AllDigits(s)
    ensures s[0] == '0' <==> n == 0
  {
    if n < 10 then [DigitChar(n)] else DecimalString(n / 10) + [DigitChar(n % 10)]
  }

  /** The value of a string of digits; leading zeros are allowed. */
  function ParseDecimal(s: string): nat
    requires AllDigits(s)
  {
    if s == [] then 0 else 10 * ParseDecimal(s[..|s| - 1]) + DigitValue(s[|s| - 1])
  }

  /** Reading back the decimal form of n gives n. */
  lemma {:induction false} ParseDecimalString(n: nat)
    ensures ParseDecimal(DecimalString(n)) == n
  {
    if n >= 10 {
      var s := DecimalString(n);
      assert s[..|s| - 1] == DecimalString(n / 10);
      ParseDecimalString(n / 10);
    }
  }

  function Pow10(k: nat): (p: nat)
    ensures p >= 1
  {
    if k == 0 then 1 else 10 * Pow10(k - 1)
  }

  /** A number below 10^k has at most k decimal digits. */
  lemma {:induction false} DecimalStringWidth(n: nat, k: nat)
    requires 1 <= k && n < Pow10(k)
    ensures |DecimalString(n)| <= k
  {
    if n >= 10 {
      assert k >= 2;
      assert n / 10 < Pow10(k - 1);
      DecimalStringWidth(n / 10, k - 1);
    }
  }

  function Zeros(k: nat): (z: string)
    ensures |z| == k && forall i | 0 <= i < k :: z[i] == '0'
  {
    seq(k, i => '0')
  }

  function Max(a: int, b: int): int { if a < b then b else a }

  /**
    s with '0' characters put in front of it until it is `width` long; a string
    that is already at least that long is left as it is.
   */
  function ZeroPad(s: string, width: int): (r: string)
    ensures |r| == Max(|s|, width)
    ensures r[|r| - |s|..] == s
    ensures forall i | 0 <= i < |r| - |s| :: r[i] == '0'
    ensures |s| >= width ==> r == s
  {
    Zeros(if width > |s| then width - |s| else 0) + s
  }

  /** The three properties in ZeroPad's contract determine its result. */
  lemma ZeroPadUnique(s: string, width: int, r: string)
    requires |r| == Max(|s|, width)
    requires r[|r| - |s|..] == s
    requires forall i | 0 <= i < |r| - |s| :: r[i] == '0'
    ensures r == ZeroPad(s, width)
  {
  }

  /** Padding twice to the same width is padding once. */
  lemma ZeroPadIdempotent(s: string, width: int)
    ensures ZeroPad(ZeroPad(s, width), width) == ZeroPad(s, width)
  {
  }

  /** Leading zeros do not change the value of a digit string. */
  lemma {:induction false} ParseLeadingZeros(k: nat, s: string)
    requires AllDigits(s)
    ensures AllDigits(Zeros(k) + s)
    ensures ParseDecimal(Zeros(k) + s) == ParseDecimal(s)
  {
    var t := Zeros(k) + s;
    if s == [] {
      assert t == Zeros(k);
      ParseZeros(k);
    } else {
      var s' := s[..|s| - 1];
      assert t[..|t| - 1] == Zeros(k) + s';
      ParseLeadingZeros(k, s');
    }
  }

  lemma {:induction false} ParseZeros(k: nat)
    ensures AllDigits(Zeros(k)) && ParseDecimal(Zeros(k)) == 0
  {
    if k > 0 {
      assert Zeros(k)[..k - 1] == Zeros(k - 1);
      ParseZeros(k - 1);
    }
  }

  /** Padding the decimal form of n keeps it a digit string whose value is n. */
  lemma ParseZeroPad(n: nat, width: int)
    ensures AllDigits(ZeroPad(DecimalString(n), width))
    ensures ParseDecimal(ZeroPad(DecimalString(n), width)) == n
  {
    var s := DecimalString(n);
    ParseLeadingZeros(if width > |s| then width - |s| else 0, s);
    ParseDecimalString(n);
  }
}
