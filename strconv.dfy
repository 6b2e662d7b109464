/** Go's strconv.FormatInt(i, 10), strconv.ParseInt(s, 10, bitSize) and
    strconv.Atoi, on unbounded integers with the range check made explicit. */
module StrConv {
  import opened Wrappers

  /** The bit sizes the core passes to ParseInt (Atoi uses the 64-bit int). */
  datatype IntSize = Bits32 | Bits64

  function MinInt(size: IntSize): int {
    match size
    case Bits32 => -0x8000_0000
    case Bits64 => -0x8000_0000_0000_0000
  }

  function MaxInt(size: IntSize): int {
    match size
    case Bits32 => 0x7fff_ffff
    case Bits64 => 0x7fff_ffff_ffff_ffff
  }

  predicate InRange(i: int, size: IntSize) {
    MinInt(size) <= i <= MaxInt(size)
  }

  predicate IsDigit(c: char) {
    '0' <= c <= '9'
  }

  predicate AllDigits(s: string) {
    forall i :: 0 <= i < |s| ==> IsDigit(s[i])
  }

  function DigitChar(d: nat): (c: char)
    requires d < 10
    ensures IsDigit(c)
  {
    (('0' as int) + d) as char
  }

  /** The decimal digits of n, most significant first, without leading zeros. */
  function FormatNat(n: nat): (s: string)
    ensures |s| >= 1 && AllDigits(s)
    ensures |s| > 1 ==> s[0] != '0'
  {
    if n < 10 then [DigitChar(n)] else FormatNat(n / 10) + [DigitChar(n % 10)]
  }

  /** strconv.FormatInt(i, 10): a '-' sign for negatives, then the digits. */
  function FormatInt(i: int): string {
    if i < 0 then "-" + FormatNat(-i) else FormatNat(i)
  }

  /** The value of a run of decimal digits (leading zeros allowed). */
  function DigitsValue(s: string): nat
    requires AllDigits(s)
  {
    if s == [] then 0
    else DigitsValue(s[..|s| - 1]) * 10 + ((s[|s| - 1] as int) - ('0' as int))
  }

  /** The syntax ParseInt accepts in base 10: an optional sign and at least one digit. */
  predicate IsDecimal(s: string) {
    var digits := if |s| > 0 && (s[0] == '+' || s[0] == '-') then s[1..] else s;
    |digits| > 0 && AllDigits(digits)
  }

  function DecimalValue(s: string): int
    requires IsDecimal(s)
  {
    if s[0] == '-' then -(DigitsValue(s[1..]) as int)
    else if s[0] == '+' then DigitsValue(s[1..])
    else DigitsValue(s)
  }

  /** strconv.ParseInt(s, 10, size): the value when s is a signed decimal whose
      value fits the size, and an error (None) for a syntax or range error. */
  function ParseInt(s: string, size: IntSize): (r: Option<int>)
    ensures r.Some? <==> IsDecimal(s) && InRange(DecimalValue(s), size)
    ensures r.Some? ==> r.value == DecimalValue(s) && InRange(r.value, size)
  {
    if IsDecimal(s) && InRange(DecimalValue(s), size) then Some(DecimalValue(s)) else None
  }

  /** strconv.Atoi on a 64-bit platform: ParseInt(s, 10, 0). */
  function Atoi(s: string): Option<int> {
    ParseInt(s, Bits64)
  }

  lemma {:induction false} DigitsValueFormatNat(n: nat)
    ensures DigitsValue(FormatNat(n)) == n
  {
    var s := FormatNat(n);
    if n < 10 {
      assert s[..0] == [];
    } else {
      DigitsValueFormatNat(n / 10);
      assert s[..|s| - 1] == FormatNat(n / 10);
    }
  }

  /** FormatInt and ParseInt are inverse on every value of the size. */
  lemma ParseFormatInt(i: int, size: IntSize)
    requires InRange(i, size)
    ensures ParseInt(FormatInt(i), size) == Some(i)
  {
    var s := FormatInt(i);
    if i < 0 {
      var f := FormatNat(-i);
      assert s[0] == '-' && s[1..] == f;
      DigitsValueFormatNat(-i);
      assert IsDecimal(s);
      assert DecimalValue(s) == -(DigitsValue(f) as int);
    } else {
      DigitsValueFormatNat(i);
      assert s[0] != '-' && s[0] != '+' by {
        assert IsDigit(s[0]);
      }
      assert IsDecimal(s);
      assert DecimalValue(s) == DigitsValue(s);
    }
  }

  /** A formatted integer never ends in a space, so it cannot end with " mins". */
  lemma FormatIntLastIsDigit(i: int)
    ensures |FormatInt(i)| >= 1 && IsDigit(FormatInt(i)[|FormatInt(i)| - 1])
  {
    var s := FormatInt(i);
    if i < 0 {
      assert s[|s| - 1] == FormatNat(-i)[|FormatNat(-i)| - 1];
    }
  }
}
