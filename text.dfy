/**
 * Decimal text for numbers: the formatting the compiler's messages use for
 * line and column numbers and argument counts, and the `int.Parse` the AST
 * applies to the digit run of an integer literal.
 */
module Text {
  import opened Wrappers

  /** Largest value of the 32-bit signed integers `int.Parse` produces. */
  const Int32Max: int := 0x7fff_ffff

  predicate IsDigit(c: char) { '0' <= c <= '9' }

  predicate AllDigits(s: string) { forall i :: 0 <= i < |s| ==> IsDigit(s[i]) }

  function DigitChar(d: nat): (c: char)
    requires d < 10
    ensures IsDigit(c) && (c as int) - ('0' as int) == d
  {
    (('0' as int) + d) as char
  }

  /** The value of a non-empty run of decimal digits. */
  function DecimalValue(s: string): nat
    requires AllDigits(s)
  {
    if s == [] then 0
    else DecimalValue(s[..|s| - 1]) * 10 + ((s[|s| - 1] as int) - ('0' as int))
  }

  /** Decimal spelling of a natural number, most significant digit first, with no leading zero. */
  function NatToString(n: nat): (s: string)
    ensures 1 <= |s| && AllDigits(s)
    ensures |s| > 1 ==> s[0] != '0'
    decreases n
  {
    if n < 10 then [DigitChar(n)] else NatToString(n / 10) + [DigitChar(n % 10)]
  }

  /** Decimal spelling of an integer, with a leading '-' when it is negative. */
  function IntToString(i: int): (s: string)
    ensures 1 <= |s|
    ensures (s[0] == '-') <==> i < 0
  {
    if i < 0 then "-" + NatToString(-i) else NatToString(i)
  }

  lemma {:induction false} DecimalOfNatToString(n: nat)
    ensures DecimalValue(NatToString(n)) == n
    decreases n
  {
    if n >= 10 {
      var s := NatToString(n);
      assert s[..|s| - 1] == NatToString(n / 10);
      DecimalOfNatToString(n / 10);
    }
  }

  /**
   * `int.Parse` on a digit run: its value when that fits a 32-bit signed
   * integer, and nothing when the runtime would throw an overflow exception.
   */
  function ParseInt32(s: string): (r: Option<int>)
    requires AllDigits(s)
    ensures r.Some? <==> DecimalValue(s) <= Int32Max
    ensures r.Some? ==> 0 <= r.value && r.value == DecimalValue(s)
  {
    if DecimalValue(s) <= Int32Max then Some(DecimalValue(s)) else None
  }

  lemma ParseInt32OfNatToString(n: nat)
    requires n <= Int32Max
    ensures ParseInt32(NatToString(n)) == Some(n)
  {
    DecimalOfNatToString(n);
  }
}
