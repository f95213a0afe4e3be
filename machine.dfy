/** Fixed-width machine integers as C sees them: FLAC__uint64, FLAC__int64 and the
    narrower unsigned fields of the metadata structures. Values are Dafny integers
    restricted to their range; every wrap-around and truncation is written out. */
module MachineInt {

  const TWO_8: int := 0x100
  const TWO_31: int := 0x8000_0000
  const TWO_32: int := 0x1_0000_0000
  const TWO_63: int := 0x8000_0000_0000_0000
  const TWO_64: int := 0x1_0000_0000_0000_0000

  const UINT64_MAX: int := TWO_64 - 1
  const INT64_MIN: int := -TWO_63
  const INT64_MAX: int := TWO_63 - 1

  type u8 = x: int | 0 <= x < TWO_8
  type u32 = x: int | 0 <= x < TWO_32
  type u64 = x: int | 0 <= x < TWO_64
  type i32 = x: int | -TWO_31 <= x < TWO_31
  type i64 = x: int | -TWO_63 <= x < TWO_63

  /** Conversion of any integer to FLAC__uint64: C keeps the value modulo 2^64. */
  function Wrap64(x: int): (r: u64)
    ensures 0 <= x < TWO_64 ==> r == x
    ensures TWO_64 <= x < 2 * TWO_64 ==> r == x - TWO_64
    ensures -TWO_64 <= x < 0 ==> r == x + TWO_64
  {
    x % TWO_64
  }

  /** Conversion to a 32-bit unsigned field (assignment of a lua_Integer to a uint32_t). */
  function Wrap32(x: int): (r: u32)
    ensures 0 <= x < TWO_32 ==> r == x
    ensures -TWO_32 <= x < 0 ==> r == x + TWO_32
  {
    x % TWO_32
  }

  /** Conversion to an 8-bit unsigned field (FLAC__byte). */
  function Wrap8(x: int): (r: u8)
    ensures 0 <= x < TWO_8 ==> r == x
    ensures -TWO_8 <= x < 0 ==> r == x + TWO_8
  {
    x % TWO_8
  }

  /** Conversion to a C int (32-bit two's complement, as the compilers in use do it). */
  function WrapS32(x: int): (r: i32)
    ensures -TWO_31 <= x < TWO_31 ==> r == x
    ensures (r - x) % TWO_32 == 0
  {
    var w := x % TWO_32;
    if w < TWO_31 then w else w - TWO_32
  }

  /** Reinterpretation of a FLAC__uint64 as a FLAC__int64 (two's complement). */
  function ToSigned(u: u64): (r: i64)
    ensures 0 <= r ==> r == u
    ensures r < 0 ==> r == u - TWO_64
  {
    if u < TWO_63 then u else u - TWO_64
  }

  /** Reinterpretation of a FLAC__int64 as a FLAC__uint64 (two's complement). */
  function ToUnsigned(i: i64): (r: u64)
    ensures ToSigned(r) == i
  {
    if i < 0 then i + TWO_64 else i
  }

  lemma UnsignedSignedInverse(u: u64)
    ensures ToUnsigned(ToSigned(u)) == u
  {
  }

  /** Two's-complement wrap of a mathematical result into FLAC__int64. */
  function WrapS64(x: int): (r: i64)
    ensures -TWO_63 <= x < TWO_63 ==> r == x
    ensures ToUnsigned(r) == Wrap64(x)
  {
    ToSigned(Wrap64(x))
  }

  /** Two mathematical results wrap to the same machine word exactly when they agree
      modulo 2^64. */
  lemma WrapS64Congruent(x: int, y: int)
    ensures WrapS64(x) == WrapS64(y) <==> x % TWO_64 == y % TWO_64
  {
    UnsignedSignedInverse(Wrap64(x));
    UnsignedSignedInverse(Wrap64(y));
  }

  /** 2^n. */
  function Pow2(n: nat): (r: nat)
    ensures r >= 1
  {
    if n == 0 then 1 else 2 * Pow2(n - 1)
  }

  lemma {:induction false} Pow2Add(m: nat, n: nat)
    ensures Pow2(m + n) == Pow2(m) * Pow2(n)
    decreases m
  {
    if m > 0 {
      Pow2Add(m - 1, n);
    }
  }

  lemma Pow2Values()
    ensures Pow2(8) == TWO_8 && Pow2(32) == TWO_32
    ensures Pow2(63) == TWO_63 && Pow2(64) == TWO_64
  {
    Pow2Add(8, 24);
    Pow2Add(32, 31);
    Pow2Add(63, 1);
    assert Pow2(8) == 256 by {
      Pow2Add(4, 4);
      Pow2Add(2, 2);
      Pow2Add(1, 1);
    }
    assert Pow2(16) == 65536 by {
      Pow2Add(8, 8);
    }
    assert Pow2(24) == 0x100_0000 by {
      Pow2Add(16, 8);
    }
    assert Pow2(31) == 0x8000_0000 by {
      Pow2Add(24, 7);
      Pow2Add(4, 3);
    }
  }

  /** b^e over the integers. */
  function Power(b: int, e: nat): int
  {
    if e == 0 then 1 else b * Power(b, e - 1)
  }

  lemma {:induction false} PowerAdd(b: int, m: nat, n: nat)
    ensures Power(b, m + n) == Power(b, m) * Power(b, n)
    decreases m
  {
    if m > 0 {
      PowerAdd(b, m - 1, n);
      assert Power(b, m + n) == b * (Power(b, m - 1) * Power(b, n));
    }
  }
}
