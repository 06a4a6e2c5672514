/** C++ integer conversions and operators that differ from Dafny's. */
module MachineInts {
  const TWO_63: int := 0x8000_0000_0000_0000
  const TWO_64: int := 0x1_0000_0000_0000_0000

  /** Conversion to uint64_t: reduction modulo 2^64. */
  function U64(x: int): (r: int)
    ensures 0 <= r < TWO_64
    ensures 0 <= x < TWO_64 ==> r == x
  {
    x % TWO_64
  }

  /** Conversion of a uint64_t to int64_t: two's complement reinterpretation. */
  function I64(u: int): (r: int)
    requires 0 <= u < TWO_64
    ensures -TWO_63 <= r < TWO_63
    ensures U64(r) == u
  {
    if u < TWO_63 then u else u - TWO_64
  }

  /** A difference of two uint64_t read back as int64_t is exact when it fits. */
  lemma {:induction false} SignedDifference(x: int)
    requires -TWO_63 <= x < TWO_63
    ensures I64(U64(x)) == x
  {
    if x < 0 { assert x % TWO_64 == x + TWO_64; }
  }

  /** The C++ remainder: truncates toward zero, so its sign is the dividend's. */
  function CRem(a: int, b: int): (r: int)
    requires b > 0
    ensures -b < r < b
    ensures a >= 0 ==> r >= 0
    ensures a <= 0 ==> r <= 0
  {
    if a >= 0 then a % b else -((-a) % b)
  }
}
