/**
 * The few pieces of Go's `strings` and `fmt` packages that the backend
 * initialisers rely on: `strings.HasPrefix`, `strings.TrimRight` and the
 * `%d` verb of `fmt.Sprintf` on an `int`.
 */
module Strings {

  /** `strings.HasPrefix(s, prefix)`. */
  predicate HasPrefix(s: string, prefix: string) {
    |prefix| <= |s| && s[..|prefix|] == prefix
  }

  lemma HasPrefixOfConcat(prefix: string, rest: string)
    ensures HasPrefix(prefix + rest, prefix)
  {
    assert (prefix + rest)[..|prefix|] == prefix;
  }

  /** `strings.TrimRight(s, cutset)`: drops every trailing character that occurs in `cutset`. */
  function TrimRight(s: string, cutset: string): (r: string)
    ensures r <= s
    ensures r != [] ==> r[|r| - 1] !in cutset
    ensures forall i :: |r| <= i < |s| ==> s[i] in cutset
    ensures r == "" <==> forall i :: 0 <= i < |s| ==> s[i] in cutset
  {
    if s != [] && s[|s| - 1] in cutset then TrimRight(s[..|s| - 1], cutset) else s
  }

  predicate IsDigit(c: char) { '0' <= c <= '9' }

  predicate AllDigits(s: string) { forall i :: 0 <= i < |s| ==> IsDigit(s[i]) }

  function DigitChar(d: nat): (c: char)
    requires d < 10
    ensures IsDigit(c)
  {
    ('0' as int + d) as char
  }

  function DigitValue(c: char): (d: nat)
    requires IsDigit(c)
    ensures d < 10
  {
    c as int - '0' as int
  }

  /** Decimal digits of `n`, most significant first, as `%d` prints a non-negative int. */
  function NatToDecimal(n: nat): (s: string)
    ensures |s| > 0 && AllDigits(s)
    ensures s[0] == '0' ==> n == 0
    decreases n
  {
    if n < 10 then [DigitChar(n)] else NatToDecimal(n / 10) + [DigitChar(n % 10)]
  }

  /** The value of a string of decimal digits (the empty string reads as 0). */
  function DecimalToNat(s: string): nat
    requires AllDigits(s)
  {
    if s == [] then 0 else 10 * DecimalToNat(s[..|s| - 1]) + DigitValue(s[|s| - 1])
  }

  lemma {:induction false} NatDecimalRoundTrip(n: nat)
    ensures DecimalToNat(NatToDecimal(n)) == n
  {
    if n >= 10 {
      var s := NatToDecimal(n);
      assert s[..|s| - 1] == NatToDecimal(n / 10);
      NatDecimalRoundTrip(n / 10);
    }
  }

  /** `fmt.Sprintf("%d", i)` for a Go `int`: a minus sign, then the digits of the magnitude. */
  function IntToDecimal(i: int): (s: string)
    ensures IsDecimal(s)
  {
    if i < 0 then "-" + NatToDecimal(-i) else NatToDecimal(i)
  }

  predicate IsDecimal(s: string) {
    if s != [] && s[0] == '-' then |s| > 1 && AllDigits(s[1..]) else |s| > 0 && AllDigits(s)
  }

  function ParseDecimal(s: string): int
    requires IsDecimal(s)
  {
    if s != [] && s[0] == '-' then -(DecimalToNat(s[1..]) as int) else DecimalToNat(s)
  }

  lemma IntDecimalRoundTrip(i: int)
    ensures ParseDecimal(IntToDecimal(i)) == i
  {
    if i < 0 {
      NatDecimalRoundTrip(-i);
      assert IntToDecimal(i)[1..] == NatToDecimal(-i);
    } else {
      NatDecimalRoundTrip(i);
    }
  }
}
