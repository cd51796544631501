/**
 * One-time codes as the handlers make them:
 * `String(Math.floor(100000 + Math.random() * 900000))`.
 * The random draw is a parameter `r` with `0 <= r < 900000`, so the code is the
 * decimal text of `100000 + r`: always six digits, never a leading zero.
 */
module OtpCodes {

  /** The smallest code and the number of distinct codes. */
  const CodeBase: nat := 100000
  const CodeRange: nat := 900000

  predicate IsDigit(c: char)
  {
    '0' <= c <= '9'
  }

  predicate AllDigits(s: string)
  {
    forall i :: 0 <= i < |s| ==> IsDigit(s[i])
  }

  /** A well-formed stored code: six decimal digits, the first not `'0'`. */
  predicate IsOtpCode(s: string)
  {
    |s| == 6 && AllDigits(s) && s[0] != '0'
  }

  function DigitChar(d: nat): (c: char)
    requires d < 10
    ensures IsDigit(c)
  {
    ('0' as int + d) as char
  }

  function DigitValue(c: char): (d: nat)
    requires IsDigit(c)
    ensures d < 10
  {
    c as int - '0' as int
  }

  function Pow10(k: nat): nat
  {
    if k == 0 then 1 else 10 * Pow10(k - 1)
  }

  /** `String(n)` for a non-negative integer: its decimal text, most significant digit first. */
  function DecimalString(n: nat): (s: string)
    ensures |s| >= 1
    ensures AllDigits(s)
  {
    if n < 10 then [DigitChar(n)] else DecimalString(n / 10) + [DigitChar(n % 10)]
  }

  /** The number a string of decimal digits denotes; the inverse of `DecimalString`. */
  function ParseDecimal(s: string): nat
    requires AllDigits(s)
  {
    if s == [] then 0 else 10 * ParseDecimal(s[..|s| - 1]) + DigitValue(s[|s| - 1])
  }

  /** `DecimalString` produces only digits, and parsing them gives the number back. */
  lemma {:induction false} ParseDecimalString(n: nat)
    ensures AllDigits(DecimalString(n))
    ensures ParseDecimal(DecimalString(n)) == n
  {
    if n >= 10 {
      ParseDecimalString(n / 10);
      var s := DecimalString(n);
      assert s[..|s| - 1] == DecimalString(n / 10);
    }
  }

  /** A number with exactly `k` digits is written with `k` characters. */
  lemma {:induction false} DecimalLength(n: nat, k: nat)
    requires 1 <= k && Pow10(k - 1) <= n < Pow10(k)
    ensures |DecimalString(n)| == k
  {
    if k > 1 {
      DecimalLength(n / 10, k - 1);
    }
  }

  /** A positive number is written without a leading zero. */
  lemma {:induction false} NoLeadingZero(n: nat)
    requires n >= 1
    ensures DecimalString(n)[0] != '0'
  {
    if n >= 10 {
      NoLeadingZero(n / 10);
    }
  }

  /** The code issued for the random draw `r`. */
  function IssueCode(r: nat): (code: string)
    requires r < CodeRange
    ensures IsOtpCode(code)
    ensures ParseDecimal(code) == CodeBase + r
  {
    ParseDecimalString(CodeBase + r);
    assert Pow10(5) == 100000 && Pow10(6) == 1000000;
    DecimalLength(CodeBase + r, 6);
    NoLeadingZero(CodeBase + r);
    DecimalString(CodeBase + r)
  }

  /** Distinct draws give distinct codes, so every code in 100000..999999 has one draw. */
  lemma IssueCodeInjective(r1: nat, r2: nat)
    requires r1 < CodeRange && r2 < CodeRange
    ensures IssueCode(r1) == IssueCode(r2) <==> r1 == r2
  {
  }
}
