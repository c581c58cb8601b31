/**
 * Decimal parsing as done by Go's `strconv.ParseUint(s, 10, bitSize)`:
 * a non-empty string of ASCII digits (no sign, no underscores, no spaces)
 * whose value fits in `bitSize` bits.
 */
module Strconv {
  import opened Wrappers

  const MaxUint32: nat := 0xFFFF_FFFF

  predicate IsDigit(c: char) {
    '0' <= c <= '9'
  }

  predicate AllDigits(s: string) {
    forall i :: 0 <= i < |s| ==> IsDigit(s[i])
  }

  function DigitValue(c: char): (d: nat)
    requires IsDigit(c)
    ensures d < 10
  {
    c as int - '0' as int
  }

  function DigitChar(d: nat): (c: char)
    requires d < 10
    ensures IsDigit(c) && DigitValue(c) == d
  {
    ('0' as int + d) as char
  }

  /** The value of a string of digits, most significant digit first. */
  function DecimalValue(s: string): nat
    requires AllDigits(s)
  {
    if s == [] then 0 else DecimalValue(s[..|s| - 1]) * 10 + DigitValue(s[|s| - 1])
  }

  /** The shortest decimal spelling of `n` (what `strconv.FormatUint(n, 10)` prints). */
  function FormatDecimal(n: nat): (s: string)
    ensures s != [] && AllDigits(s)
  {
    if n < 10 then [DigitChar(n)] else FormatDecimal(n / 10) + [DigitChar(n % 10)]
  }

  /** Any digit string of any length, leading zeros included: the unbounded parse. */
  function ParseDecimal(s: string): (r: Option<nat>)
    ensures r.Some? <==> s != [] && AllDigits(s)
  {
    if s != [] && AllDigits(s) then Some(DecimalValue(s)) else None
  }

  /** `strconv.ParseUint(s, 10, 32)`: a decimal that fits in 32 bits, or an error. */
  function ParseUint32(s: string): (r: Option<nat>)
    ensures r.Some? <==> ParseDecimal(s).Some? && ParseDecimal(s).value <= MaxUint32
    ensures r.Some? ==> r.value <= MaxUint32 && r == ParseDecimal(s)
  {
    match ParseDecimal(s)
    case Some(n) => if n <= MaxUint32 then Some(n) else None
    case None => None
  }

  lemma {:induction false} DecimalValueOfFormat(n: nat)
    ensures DecimalValue(FormatDecimal(n)) == n
  {
    if n >= 10 {
      var s := FormatDecimal(n);
      assert s[..|s| - 1] == FormatDecimal(n / 10);
      DecimalValueOfFormat(n / 10);
    }
  }

  /** Every 32-bit value round-trips through its decimal spelling; every larger one is refused. */
  lemma ParseFormatRoundTrip(n: nat)
    ensures ParseUint32(FormatDecimal(n)) == if n <= MaxUint32 then Some(n) else None
  {
    DecimalValueOfFormat(n);
  }

  /** What ParseUint accepts is exactly the digit strings with a 32-bit value. */
  lemma ParseUint32Rejects()
    ensures ParseUint32("") == None
    ensures ParseUint32("-1") == None
    ensures ParseUint32("+1") == None
    ensures ParseUint32("abc") == None
    ensures ParseUint32(" 7") == None
    ensures ParseUint32("007") == Some(7)
  {
    assert !IsDigit("-1"[0]);
    assert !IsDigit("+1"[0]);
    assert !IsDigit("abc"[0]);
    assert !IsDigit(" 7"[0]);
    assert "007"[..2] == "00" && "00"[..1] == "0" && "0"[..0] == [];
  }
}
