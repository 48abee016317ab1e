/** Stock datatypes, and the integer conversions the program applies to durations. */
module Prelude {

  datatype Option<+T> = None | Some(value: T)

  datatype Result<+T, +E> = Ok(value: T) | Err(error: E)

  const I64_MAX: int := 0x7fff_ffff_ffff_ffff
  const I64_MIN: int := -0x8000_0000_0000_0000
  const TWO_64: int := 0x1_0000_0000_0000_0000

  /** `i64::saturating_add` */
  function SaturatingAdd(a: int, b: int): int {
    if a + b > I64_MAX then I64_MAX else if a + b < I64_MIN then I64_MIN else a + b
  }

  /** `n as i64` for an unsigned n: the low 64 bits, read as a signed number */
  function TruncateToI64(n: nat): int {
    (n - I64_MIN) % TWO_64 + I64_MIN
  }

  /** `i64::try_from(n).unwrap_or(i64::MAX)` */
  function ClampToI64(n: nat): int {
    if n > I64_MAX then I64_MAX else n
  }

  lemma SubsetIsSmaller<T>(a: set<T>, b: set<T>)
    requires a <= b
    ensures |a| <= |b|
  {
    assert b == a + (b - a);
  }
}
