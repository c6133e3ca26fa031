/** What several of the models share: optional values, results, integers of 64 bits, decimal digits. */
module Basics {

  datatype Option<+T> = None | Some(value: T)

  datatype Result<+T, +E> = Ok(value: T) | Err(error: E)

  type Bytes = seq<bv8>

  function One(yes: bool): nat
  {
    if yes then 1 else 0
  }

  function Least(x: int, y: int): int
  {
    if x < y then x else y
  }

  // ----- 64-bit integers -----

  const MAX_INT64: int := 0x7fff_ffff_ffff_ffff
  const RANGE_64: int := 0x1_0000_0000_0000_0000

  predicate IsInt64(x: int)
  {
    -MAX_INT64 - 1 <= x <= MAX_INT64
  }

  /** Addition of two int64 values. */
  function AddInt64(x: int, y: int): int
  {
    (x + y + MAX_INT64 + 1) % RANGE_64 - MAX_INT64 - 1
  }

  // ----- decimal digits -----

  predicate IsDigit(c: char)
  {
    '0' <= c <= '9'
  }

  /** The number that a string of digits writes. */
  function Digits(s: string): (r: Option<nat>)
    ensures r.Some? <==> forall i :: 0 <= i < |s| ==> IsDigit(s[i])
  {
    if s == "" then Some(0)
    else
      var before, last := Digits(s[..|s| - 1]), s[|s| - 1];
      if before.Some? && IsDigit(last) then Some(before.value * 10 + (last as int - '0' as int)) else None
  }
}
