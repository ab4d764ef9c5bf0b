/**
 * `Long.parseLong` and `Integer.parseInt` written out: an optional sign and
 * one or more decimal digits whose value fits the type's range.
 * `Show` writes a number back as text, and `ParseShow` is the round trip.
 */
module Decimal {
  import opened Text
  import opened Wrappers

  const LongMin: int := -0x8000_0000_0000_0000
  const LongMax: int := 0x7FFF_FFFF_FFFF_FFFF
  const IntMin: int := -0x8000_0000
  const IntMax: int := 0x7FFF_FFFF

  predicate AllDigits(s: string) {
    forall i :: 0 <= i < |s| ==> IsDigit(s[i])
  }

  function DigitValue(c: char): (d: nat)
    requires IsDigit(c)
    ensures d < 10
  {
    c as int - '0' as int
  }

  function DigitChar(d: nat): (c: char)
    requires d < 10
    ensures IsDigit(c) && DigitValue(c) == d
  {
    ('0' as int + d) as char
  }

  /** The value of a string of digits, most significant first. */
  function DigitsValue(s: string): nat
    requires AllDigits(s)
  {
    if s == [] then 0 else 10 * DigitsValue(s[..|s| - 1]) + DigitValue(s[|s| - 1])
  }

  /** The digits of `s` after an optional leading sign. */
  function Unsigned(s: string): string {
    if |s| > 0 && (s[0] == '-' || s[0] == '+') then s[1..] else s
  }

  /** A sign followed by at least one digit, and nothing else. */
  predicate WellFormed(s: string) {
    |Unsigned(s)| > 0 && AllDigits(Unsigned(s))
  }

  /** The value a well-formed string denotes, before any range check. */
  function SignedValue(s: string): int
    requires WellFormed(s)
  {
    var magnitude: int := DigitsValue(Unsigned(s));
    if s[0] == '-' then -magnitude else magnitude
  }

  /** Parsing into the range [lo, hi]; `None` is a NumberFormatException. */
  function ParseInteger(s: string, lo: int, hi: int): (r: Option<int>)
    ensures r.Some? <==> WellFormed(s) && lo <= SignedValue(s) <= hi
    ensures r.Some? ==> r.value == SignedValue(s)
  {
    if !WellFormed(s) then None
    else
      var v := SignedValue(s);
      if lo <= v <= hi then Some(v) else None
  }

  /** `Long.parseLong`: a well-formed decimal whose value fits in 64 bits. */
  function ParseLong(s: string): (r: Option<int>)
    ensures r.Some? <==> WellFormed(s) && LongMin <= SignedValue(s) <= LongMax
    ensures r.Some? ==> r.value == SignedValue(s)
  {
    ParseInteger(s, LongMin, LongMax)
  }

  /** `Integer.parseInt`: a well-formed decimal whose value fits in 32 bits. */
  function ParseInt(s: string): (r: Option<int>)
    ensures r.Some? <==> WellFormed(s) && IntMin <= SignedValue(s) <= IntMax
    ensures r.Some? ==> r.value == SignedValue(s)
  {
    ParseInteger(s, IntMin, IntMax)
  }

  /** The decimal digits of `n`, without leading zeros. */
  function ShowNat(n: nat): (s: string)
    ensures |s| > 0 && AllDigits(s)
  {
    if n < 10 then [DigitChar(n)] else ShowNat(n / 10) + [DigitChar(n % 10)]
  }

  /** `Long.toString`. */
  function Show(n: int): string {
    if n < 0 then "-" + ShowNat(-n) else ShowNat(n)
  }

  lemma {:induction false} ShowNatValue(n: nat)
    ensures DigitsValue(ShowNat(n)) == n
  {
    if n >= 10 {
      var s := ShowNat(n);
      ShowNatValue(n / 10);
      assert s[..|s| - 1] == ShowNat(n / 10);
    }
  }

  /** Every number in range parses back from its decimal text. */
  lemma ParseShow(n: int, lo: int, hi: int)
    requires lo <= n <= hi
    ensures ParseInteger(Show(n), lo, hi) == Some(n)
  {
    if n < 0 {
      ShowNatValue(-n);
      assert Unsigned(Show(n)) == ShowNat(-n);
    } else {
      ShowNatValue(n);
      assert ShowNat(n)[0] != '-' && ShowNat(n)[0] != '+';
    }
  }

  /** An empty string or a lone sign is refused. */
  lemma RejectsEmptyDigits(s: string, lo: int, hi: int)
    requires s == "" || s == "-" || s == "+"
    ensures ParseInteger(s, lo, hi).None?
  {
  }
}
