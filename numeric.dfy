/**
 * Go's 64-bit signed integers as the service uses them: the wrap-around of
 * int64 arithmetic and `strconv.ParseInt(s, 10, 64)`, which turns query and
 * path parameters into numbers.
 */
module Numeric {
  import opened Wrappers

  const TwoTo63: int := 0x8000_0000_0000_0000
  const Int64Min: int := -TwoTo63
  const Int64Max: int := TwoTo63 - 1

  predicate InInt64(x: int) {
    Int64Min <= x <= Int64Max
  }

  /** The int64 that Go's two's-complement arithmetic leaves for the exact value `x`. */
  function Wrap64(x: int): (r: int)
    ensures InInt64(r)
    ensures (x - r) % (2 * TwoTo63) == 0
    ensures InInt64(x) ==> r == x
  {
    (x + TwoTo63) % (2 * TwoTo63) - TwoTo63
  }

  predicate IsDigit(c: char) {
    '0' <= c <= '9'
  }

  predicate AllDigits(s: string) {
    forall i :: 0 <= i < |s| ==> IsDigit(s[i])
  }

  function DigitValue(c: char): (d: nat)
    requires IsDigit(c)
    ensures d < 10
  {
    c as int - '0' as int
  }

  function DigitChar(d: nat): (c: char)
    requires d < 10
    ensures IsDigit(c) && DigitValue(c) == d
  {
    ('0' as int + d) as char
  }

  /** The value of a string of decimal digits, most significant first. */
  function DecimalValue(s: string): nat
    requires AllDigits(s)
  {
    if |s| == 0 then 0 else DecimalValue(s[..|s| - 1]) * 10 + DigitValue(s[|s| - 1])
  }

  /** The text after an optional leading sign. */
  function Unsigned(s: string): string {
    if |s| > 0 && (s[0] == '+' || s[0] == '-') then s[1..] else s
  }

  /** A sign followed by at least one decimal digit and nothing else. */
  predicate WellSpelled(s: string) {
    |Unsigned(s)| > 0 && AllDigits(Unsigned(s))
  }

  /** The exact value a well-spelled decimal stands for, before any range check. */
  function SignedValue(s: string): int
    requires WellSpelled(s)
  {
    if s[0] == '-' then -(DecimalValue(Unsigned(s)) as int) else DecimalValue(Unsigned(s))
  }

  /**
   * `strconv.ParseInt(s, 10, 64)`: an optional sign, then at least one decimal
   * digit and nothing else (with base 10 given, no prefix and no underscores),
   * and a value that fits in int64. None is the syntax or range error.
   */
  function ParseInt64(s: string): (r: Option<int>)
    ensures r.Some? <==> WellSpelled(s) && InInt64(SignedValue(s))
    ensures r.Some? ==> r.value == SignedValue(s)
  {
    var digits := Unsigned(s);
    if |digits| == 0 || !AllDigits(digits) then None
    else
      var v := if s[0] == '-' then -(DecimalValue(digits) as int) else DecimalValue(digits);
      if InInt64(v) then Some(v) else None
  }

  /** The shortest decimal spelling of `n`: no leading zero, and "0" only for zero. */
  function Decimal(n: nat): (s: string)
    ensures |s| > 0 && AllDigits(s)
    ensures s == "0" <==> n == 0
    ensures n > 0 ==> s[0] != '0'
  {
    if n < 10 then [DigitChar(n)] else Decimal(n / 10) + [DigitChar(n % 10)]
  }

  /**
   * The decimal spelling of an id: a minus sign for a negative number, then
   * the shortest digits. The service never formats ids itself; this is the
   * reference inverse of `ParseInt64` that says which path ids are accepted.
   */
  function FormatInt(n: int): (s: string)
    ensures WellSpelled(s) && SignedValue(s) == n
    ensures s[0] == '-' <==> n < 0
  {
    if n < 0 then
      DecimalValueOfDecimal(-n);
      assert Unsigned("-" + Decimal(-n)) == Decimal(-n);
      "-" + Decimal(-n)
    else
      DecimalValueOfDecimal(n);
      assert IsDigit(Decimal(n)[0]);
      Decimal(n)
  }

  lemma {:induction false} DecimalValueOfDecimal(n: nat)
    ensures DecimalValue(Decimal(n)) == n
  {
    var s := Decimal(n);
    if n >= 10 {
      DecimalValueOfDecimal(n / 10);
      assert s[..|s| - 1] == Decimal(n / 10);
    }
  }

  /** Every int64 written in decimal parses back to itself. */
  lemma FormatParseRoundTrip(n: int)
    requires InInt64(n)
    ensures ParseInt64(FormatInt(n)) == Some(n)
  {
  }
}
