/** Decimal digit strings and Rust's `i64::from_str_radix(s, 10)` on them. */
module Decimal {
  import opened Wrappers
  import opened Chars

  const I64_MIN: int := -0x8000_0000_0000_0000
  const I64_MAX: int := 0x7FFF_FFFF_FFFF_FFFF

  /** Rust's `i64`. */
  newtype i64 = x: int | I64_MIN <= x <= I64_MAX

  predicate AllDigits(ds: seq<char>) {
    forall i :: 0 <= i < |ds| ==> IsDigit(ds[i])
  }

  function DigitValue(c: char): (d: nat)
    requires IsDigit(c)
    ensures d < 10
  {
    (c as int) - ('0' as int)
  }

  /** The number a string of decimal digits denotes (leading zeros allowed). */
  function DecimalValue(ds: seq<char>): nat
    requires AllDigits(ds)
  {
    if ds == [] then 0
    else DecimalValue(ds[..|ds| - 1]) * 10 + DigitValue(ds[|ds| - 1])
  }

  /** The digit-by-digit accumulation of `from_str_radix`, with the
      `checked_mul` and `checked_add` of every step: it fails as soon as the
      value read so far leaves the range of `i64`. */
  function Accumulate(ds: seq<char>): (r: Option<nat>)
    requires AllDigits(ds)
    ensures r.Some? <==> DecimalValue(ds) <= I64_MAX
    ensures r.Some? ==> r.value == DecimalValue(ds)
  {
    if ds == [] then Some(0)
    else
      match Accumulate(ds[..|ds| - 1])
      case None => None
      case Some(acc) =>
        if acc * 10 > I64_MAX then None
        else if acc * 10 + DigitValue(ds[|ds| - 1]) > I64_MAX then None
        else Some(acc * 10 + DigitValue(ds[|ds| - 1]))
  }

  /** `i64::from_str_radix(ds, 10)` on a string of digits: it fails on the
      empty string and on a value above `i64::MAX`, and otherwise gives the
      value the digits denote. */
  function ParseI64(ds: seq<char>): (r: Option<i64>)
    requires AllDigits(ds)
    ensures r.Some? <==> ds != [] && DecimalValue(ds) <= I64_MAX
    ensures r.Some? ==> r.value as int == DecimalValue(ds)
  {
    if ds == [] then None
    else
      match Accumulate(ds)
      case None => None
      case Some(v) => Some(v as i64)
  }
}
