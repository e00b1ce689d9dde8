/**
 * The contract of Go's `strconv.ParseInt(s, 10, 64)` as the log scanner uses it:
 * an optional `+` or `-` sign followed by at least one decimal digit, nothing
 * else (with an explicit base of 10 no underscores or prefixes are accepted),
 * and a value that fits in a signed 64-bit integer. Any other input is an error.
 */
module Decimal {
  import opened Wrappers

  const MinInt64: int := -0x8000_0000_0000_0000
  const MaxInt64: int := 0x7fff_ffff_ffff_ffff

  predicate IsDigit(c: char) {
    '0' <= c <= '9'
  }

  predicate AllDigits(s: string) {
    forall i :: 0 <= i < |s| ==> IsDigit(s[i])
  }

  /** The value of a string of decimal digits, most significant digit first. */
  function DigitsValue(s: string): nat
    requires AllDigits(s)
    decreases |s|
  {
    if |s| == 0 then 0
    else DigitsValue(s[..|s| - 1]) * 10 + (s[|s| - 1] as int - '0' as int)
  }

  /** Parses a signed decimal 64-bit integer; `None` stands for Go's non-nil error. */
  function ParseInt(s: string): (r: Option<int>)
    ensures r.Some? ==> MinInt64 <= r.value <= MaxInt64
    ensures r.Some? ==> |s| > 0 && AllDigits(s[1..]) && (IsDigit(s[0]) || (|s| > 1 && (s[0] == '-' || s[0] == '+')))
  {
    if |s| == 0 then None
    else
      var digits := if s[0] == '-' || s[0] == '+' then s[1..] else s;
      if |digits| == 0 || !AllDigits(digits) then None
      else
        var v: int := if s[0] == '-' then -(DigitsValue(digits) as int) else DigitsValue(digits);
        if MinInt64 <= v <= MaxInt64 then Some(v) else None
  }

  /** Canonical decimal spelling of a natural number. */
  function NatDigits(n: nat): (s: string)
    decreases n
  {
    if n < 10 then ['0' + n as char]
    else NatDigits(n / 10) + ['0' + (n % 10) as char]
  }

  /** Canonical decimal spelling of an integer, with `-` for negatives. */
  function FormatInt(n: int): string {
    if n < 0 then "-" + NatDigits(-n) else NatDigits(n)
  }

  lemma {:induction false} NatDigitsValue(n: nat)
    ensures |NatDigits(n)| > 0 && AllDigits(NatDigits(n))
    ensures DigitsValue(NatDigits(n)) == n
    decreases n
  {
    if n >= 10 {
      NatDigitsValue(n / 10);
      var s := NatDigits(n);
      assert s[..|s| - 1] == NatDigits(n / 10);
    }
  }

  /** Every 64-bit integer survives formatting and parsing back. */
  lemma ParseFormatInt(n: int)
    requires MinInt64 <= n <= MaxInt64
    ensures ParseInt(FormatInt(n)) == Some(n)
  {
    if n < 0 {
      NatDigitsValue(-n);
      var s := FormatInt(n);
      assert s[0] == '-' && s[1..] == NatDigits(-n);
      assert -(DigitsValue(s[1..]) as int) == n;
    } else {
      NatDigitsValue(n);
    }
  }

  /** A sign on its own, or a sign followed by anything that is not a digit, is an error. */
  lemma ParseIntNeedsDigit(s: string)
    requires |s| > 0 && (s[0] == '-' || s[0] == '+')
    requires |s| == 1 || !IsDigit(s[1])
    ensures ParseInt(s) == None
  {
  }
}
