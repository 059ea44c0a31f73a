/**
 * Unsigned 64-bit integers and the decimal parser Rust's `str::parse::<u64>`
 * applies to path parameters: an optional leading `+`, then one or more ASCII
 * digits whose value is below 2^64. `Decimal` is the canonical rendering and
 * the parser's partner: `ParseU64(Decimal(n)) == Some(n)`.
 */
module Numbers {
  import opened Wrappers

  const U64_LIMIT: int := 0x1_0000_0000_0000_0000

  type uint64 = x: int | 0 <= x < 0x1_0000_0000_0000_0000

  predicate IsDigit(c: char) {
    '0' <= c <= '9'
  }

  function DigitValue(c: char): (d: nat)
    requires IsDigit(c)
    ensures d < 10
  {
    (c as int) - ('0' as int)
  }

  function DigitChar(d: nat): (c: char)
    requires d < 10
    ensures IsDigit(c) && DigitValue(c) == d
  {
    (('0' as int) + d) as char
  }

  predicate AllDigits(s: string) {
    forall i :: 0 <= i < |s| ==> IsDigit(s[i])
  }

  /** Value of a digit string read most significant digit first; "" reads as 0. */
  function DigitsValue(s: string): nat
    requires AllDigits(s)
  {
    if |s| == 0 then 0 else DigitsValue(s[..|s| - 1]) * 10 + DigitValue(s[|s| - 1])
  }

  /** The part of `s` that must be digits: a single leading `+` is skipped. */
  function Unsigned(s: string): string {
    if |s| > 0 && s[0] == '+' then s[1..] else s
  }

  /**
   * `s.parse::<u64>()`: fails on the empty string, on a lone `+`, on any
   * character that is not an ASCII digit (a `-` included) and on a value of
   * 2^64 or more; leading zeros are accepted.
   */
  function ParseU64(s: string): (r: Option<uint64>)
    ensures r.Some? <==>
      (|Unsigned(s)| > 0 && AllDigits(Unsigned(s)) && DigitsValue(Unsigned(s)) < U64_LIMIT)
    ensures r.Some? ==> r.value == DigitsValue(Unsigned(s))
  {
    var digits := Unsigned(s);
    if |digits| == 0 || !AllDigits(digits) then None
    else if DigitsValue(digits) < U64_LIMIT then Some(DigitsValue(digits))
    else None
  }

  /** Canonical decimal rendering of `n`: no sign, no leading zero. */
  function Decimal(n: nat): (s: string)
    ensures |s| > 0
  {
    if n < 10 then [DigitChar(n)] else Decimal(n / 10) + [DigitChar(n % 10)]
  }

  lemma {:induction false} DecimalReadsBack(n: nat)
    ensures AllDigits(Decimal(n))
    ensures DigitsValue(Decimal(n)) == n
    ensures n > 0 ==> Decimal(n)[0] != '0'
  {
    if n >= 10 {
      DecimalReadsBack(n / 10);
      var s := Decimal(n);
      var prefix := Decimal(n / 10);
      assert s == prefix + [DigitChar(n % 10)];
      assert s[..|s| - 1] == prefix;
      assert s[0] == prefix[0];
    }
  }

  /** Round trip: parsing the canonical rendering of a u64 gives it back. */
  lemma ParseU64OfDecimal(n: uint64)
    ensures ParseU64(Decimal(n)) == Some(n)
    ensures ParseU64("+" + Decimal(n)) == Some(n)
  {
    DecimalReadsBack(n);
    var s := Decimal(n);
    assert Unsigned(s) == s;
    assert Unsigned("+" + s) == s;
  }

  /** A character that is not a digit, other than a leading `+`, makes the parse fail. */
  lemma ParseU64RejectsNonDigit(s: string, i: nat)
    requires i < |s| && !IsDigit(s[i])
    requires !(i == 0 && s[i] == '+')
    ensures ParseU64(s) == None
  {
  }

  /** Only the empty string and a lone `+` lack digits altogether. */
  lemma ParseU64RejectsEmpty()
    ensures ParseU64("") == None
    ensures ParseU64("+") == None
  {
  }

  /** A value of 2^64 or more does not fit: its decimal rendering does not parse. */
  lemma ParseU64RejectsOverflow(n: nat)
    requires n >= U64_LIMIT
    ensures ParseU64(Decimal(n)) == None
  {
    DecimalReadsBack(n);
    assert Unsigned(Decimal(n)) == Decimal(n);
  }
}
