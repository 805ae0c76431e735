/**
 * Base-10 conversion of Go's `int` (64 bits wide): `strconv.Itoa`, used by the client to put
 * the port and the timeout into URLs, and `strconv.Atoi`, used by the server to read the timeout.
 */
module Decimal {
  import opened Wrappers

  const MinInt: int := -0x8000_0000_0000_0000
  const MaxInt: int := 0x7FFF_FFFF_FFFF_FFFF

  predicate IsDigit(c: char) {
    '0' <= c <= '9'
  }

  predicate AllDigits(s: string) {
    forall i :: 0 <= i < |s| ==> IsDigit(s[i])
  }

  function DigitChar(d: nat): (c: char)
    requires d < 10
  {
    ('0' as int + d) as char
  }

  /** Digits of `n`, most significant first, with no leading zero. */
  function NatToDecimal(n: nat): string
  {
    if n < 10 then [DigitChar(n)] else NatToDecimal(n / 10) + [DigitChar(n % 10)]
  }

  /** The value of a string of decimal digits, read left to right. */
  function DigitsValue(s: string): nat
    requires AllDigits(s)
  {
    if s == [] then 0 else DigitsValue(s[..|s| - 1]) * 10 + (s[|s| - 1] as int - '0' as int)
  }

  /** `strconv.Itoa`: a minus sign for negative values, then the digits of the magnitude. */
  function Itoa(n: int): (r: string)
    ensures |r| > 0 && (r[0] == '-' <==> n < 0)
    ensures forall i :: 0 <= i < |r| ==> IsDigit(r[i]) || (i == 0 && r[i] == '-')
  {
    NatToDecimalDigits(if n < 0 then -n else n);
    if n < 0 then "-" + NatToDecimal(-n) else NatToDecimal(n)
  }

  /**
   * `strconv.Atoi`: an optional sign, then at least one decimal digit and nothing else; a value
   * outside the range of `int` is an error as well.
   */
  function Atoi(s: string): (r: Option<int>)
    ensures r.Some? ==> MinInt <= r.value <= MaxInt
    ensures r.Some? ==> |s| > 0
  {
    if |s| == 0 then None
    else
      var digits := if s[0] == '-' || s[0] == '+' then s[1..] else s;
      if |digits| == 0 || !AllDigits(digits) then None
      else
        var v: int := if s[0] == '-' then -(DigitsValue(digits) as int) else DigitsValue(digits);
        if MinInt <= v <= MaxInt then Some(v) else None
  }

  lemma {:induction false} NatToDecimalDigits(n: nat)
    ensures |NatToDecimal(n)| > 0 && AllDigits(NatToDecimal(n))
    ensures DigitsValue(NatToDecimal(n)) == n
  {
    if n >= 10 {
      NatToDecimalDigits(n / 10);
      var s := NatToDecimal(n);
      assert s[..|s| - 1] == NatToDecimal(n / 10);
    }
  }

  /** What `Itoa` writes, `Atoi` reads back, for every value of Go's `int`. */
  lemma ItoaAtoiRoundTrip(n: int)
    requires MinInt <= n <= MaxInt
    ensures Atoi(Itoa(n)) == Some(n)
  {
    var m := if n < 0 then -n else n;
    NatToDecimalDigits(m);
    var s := Itoa(n);
    if n < 0 {
      assert s[1..] == NatToDecimal(m);
    } else {
      assert IsDigit(s[0]);
    }
  }
}
