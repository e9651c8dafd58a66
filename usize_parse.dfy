/**
 * Base-10 parsing of a `usize` field, the rule `str::parse::<usize>` applies
 * to the buffer capacity. The target is taken to be 64-bit.
 */
module Usize {
  import opened Wrappers

  const UsizeMax: int := 0xFFFF_FFFF_FFFF_FFFF

  type Usize = n: int | 0 <= n <= UsizeMax

  predicate IsDigit(c: char) { '0' <= c <= '9' }

  predicate AllDigits(s: string) { forall i :: 0 <= i < |s| ==> IsDigit(s[i]) }

  function DigitValue(c: char): (d: nat)
    requires IsDigit(c)
    ensures d < 10
  {
    c as int - '0' as int
  }

  function DigitChar(d: nat): (c: char)
    requires d < 10
    ensures IsDigit(c) && DigitValue(c) == d
  {
    ('0' as int + d) as char
  }

  /** The number a string of decimal digits denotes, most significant digit first. */
  function DecimalValue(s: string): nat
    requires AllDigits(s)
  {
    if s == [] then 0 else DecimalValue(s[..|s| - 1]) * 10 + DigitValue(s[|s| - 1])
  }

  /** The canonical decimal spelling of `n`: no sign, no leading zeros. */
  function DecimalString(n: nat): (s: string)
    ensures |s| > 0 && AllDigits(s)
    ensures s[0] == '0' ==> n == 0
  {
    if n < 10 then [DigitChar(n)] else DecimalString(n / 10) + [DigitChar(n % 10)]
  }

  /**
   * `usize::from_str`: a non-empty string of decimal digits whose value fits
   * in a `usize`; anything else (empty, a stray character, overflow) fails.
   */
  function ParseUsize(s: string): (r: Option<Usize>)
    ensures r.Some? ==> |s| > 0 && AllDigits(s) && r.value == DecimalValue(s)
    ensures r.None? ==> s == [] || !AllDigits(s) || DecimalValue(s) > UsizeMax
  {
    if s != [] && AllDigits(s) && DecimalValue(s) <= UsizeMax then Some(DecimalValue(s)) else None
  }

  lemma {:induction false} DecimalValueOfString(n: nat)
    ensures DecimalValue(DecimalString(n)) == n
  {
    if n >= 10 {
      DecimalValueOfString(n / 10);
      var s := DecimalString(n);
      assert s[..|s| - 1] == DecimalString(n / 10);
    }
  }

  /** Round trip: every `usize` parses back from its own decimal spelling. */
  lemma ParseDecimalString(n: Usize)
    ensures ParseUsize(DecimalString(n)) == Some(n)
  {
    DecimalValueOfString(n);
  }
}
