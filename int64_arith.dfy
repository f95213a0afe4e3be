/** The FLAC__int64 metamethods on operands already converted by luaflac_toint64 (see
    Int64Convert.Int64Of). C leaves signed overflow undefined; this model assumes the
    two's-complement wrap-around that the compilers in use produce, and each operation
    states that its result is exact whenever the mathematical result fits and that it
    has the same bits as the corresponding FLAC__uint64 operation. Division, remainder
    and shifts keep C's own preconditions. */
module Int64Arith {
  import opened MachineInt
  import opened BitOps
  import opened ModArith
  import opened Lua
  import U = UInt64Arith

  /** __add */
  function Add(a: i64, b: i64): (r: i64)
    ensures INT64_MIN <= a + b <= INT64_MAX ==> r == a + b
    ensures ToUnsigned(r) == U.Add(ToUnsigned(a), ToUnsigned(b))
  {
    WrapS64(a + b)
  }

  /** __sub: adding b back restores a. */
  function Sub(a: i64, b: i64): (r: i64)
    ensures INT64_MIN <= a - b <= INT64_MAX ==> r == a - b
    ensures ToUnsigned(r) == U.Sub(ToUnsigned(a), ToUnsigned(b))
    ensures Add(r, b) == a
  {
    WrapS64Mod(a - b);
    WrapS64Congruent(WrapS64(a - b) + b, a);
    WrapS64(a - b)
  }

  /** __mul */
  function Mul(a: i64, b: i64): (r: i64)
    ensures INT64_MIN <= a * b <= INT64_MAX ==> r == a * b
    ensures ToUnsigned(r) == U.Mul(ToUnsigned(a), ToUnsigned(b))
  {
    ToUnsignedMod(a);
    ToUnsignedMod(b);
    MulReduce(a, b, TWO_64);
    WrapS64(a * b)
  }

  /** __div and __idiv: C's quotient, truncated toward zero. The remainder it leaves is
      smaller than the divisor in magnitude and takes the dividend's sign. INT64_MIN / -1
      overflows, which C leaves undefined. */
  function Div(a: i64, b: i64): (q: i64)
    requires b != 0 && !(a == INT64_MIN && b == -1)
    ensures Abs(a - q * b) < Abs(b)
    ensures a - q * b == 0 || (a - q * b < 0 <==> a < 0)
  {
    TruncDivRemainder(a, b);
    TruncDivMagnitude(a, b);
    TruncDiv(a, b)
  }

  /** __mod: C's remainder, the one that completes Div. */
  function Mod(a: i64, b: i64): (r: i64)
    requires b != 0 && !(a == INT64_MIN && b == -1)
    ensures Div(a, b) * b + r == a
    ensures Abs(r) < Abs(b) && (r == 0 || (r < 0 <==> a < 0))
  {
    a - Div(a, b) * b
  }

  /** __band: the result is negative exactly when both operands are. */
  function BAnd(a: i64, b: i64): (r: i64)
    ensures r < 0 <==> a < 0 && b < 0
    ensures ToUnsigned(r) == U.BAnd(ToUnsigned(a), ToUnsigned(b))
  {
    Pow2Values();
    AndTopBit(ToUnsigned(a), ToUnsigned(b), 64);
    ToSigned(BitAnd(ToUnsigned(a), ToUnsigned(b), 64))
  }

  /** __bor: negative exactly when either operand is; AND plus OR is the sum. */
  function BOr(a: i64, b: i64): (r: i64)
    ensures r < 0 <==> a < 0 || b < 0
    ensures ToUnsigned(r) == U.BOr(ToUnsigned(a), ToUnsigned(b))
    ensures BAnd(a, b) + r == a + b
  {
    Pow2Values();
    OrTopBit(ToUnsigned(a), ToUnsigned(b), 64);
    AndOrXorSum(ToUnsigned(a), ToUnsigned(b), 64);
    ToSigned(BitOr(ToUnsigned(a), ToUnsigned(b), 64))
  }

  /** __bxor: negative exactly when the signs differ; applying it twice with the same
      mask gives back a (XorTwice). */
  function BXor(a: i64, b: i64): (r: i64)
    ensures r < 0 <==> (a < 0) != (b < 0)
    ensures ToUnsigned(r) == U.BXor(ToUnsigned(a), ToUnsigned(b))
  {
    Pow2Values();
    XorTopBit(ToUnsigned(a), ToUnsigned(b), 64);
    ToSigned(BitXor(ToUnsigned(a), ToUnsigned(b), 64))
  }

  /** XOR with the same mask twice gives back a. */
  lemma XorTwice(a: i64, b: i64)
    ensures BXor(BXor(a, b), b) == a
  {
    Pow2Values();
    XorInvolution(ToUnsigned(a), ToUnsigned(b), 64);
  }

  /** __bnot: in two's complement ~a is -a - 1. */
  function BNot(a: i64): (r: i64)
    ensures r == -(a as int) - 1
  {
    Pow2Values();
    ToSigned(BitNot(ToUnsigned(a), 64))
  }

  /** __shl: the bits of a moved up by b places. C leaves a negative operand or a lost
      bit undefined; the model wraps, exactly like the unsigned shift. */
  function Shl(a: i64, b: i64): (r: i64)
    requires 0 <= b < 64
    ensures INT64_MIN <= a * Pow2(b) <= INT64_MAX ==> r == a * Pow2(b)
    ensures ToUnsigned(r) == U.Shl(ToUnsigned(a), b)
  {
    ToUnsignedMod(a);
    MulReduceLeft(a, Pow2(b), TWO_64);
    WrapS64(a * Pow2(b))
  }

  /** __shr: both operands are converted to FLAC__uint64 first, so the shift is logical:
      a non-negative a is divided by 2^b, and a negative a shifted by at least one place
      becomes non-negative. */
  function Shr(a: i64, b: i64): (r: i64)
    requires 0 <= b < 64
    ensures a >= 0 ==> r == a / Pow2(b)
    ensures a < 0 && b >= 1 ==> r == (a + TWO_64) / Pow2(b)
    ensures ToUnsigned(r) == U.Shr(ToUnsigned(a), b)
  {
    if b >= 1 then
      ShiftedBelowSign(ToUnsigned(a), b);
      ToSigned(U.Shr(ToUnsigned(a), b))
    else
      ToSigned(U.Shr(ToUnsigned(a), b))
  }

  /** A word shifted right by at least one place has its top bit clear. */
  lemma ShiftedBelowSign(x: u64, b: nat)
    requires 1 <= b < 64
    ensures x / Pow2(b) < TWO_63
  {
    assert Pow2(b) >= 2;
    MulMonotone(2, Pow2(b), TWO_63);
    DivBelow(x, Pow2(b), TWO_63);
  }

  /** __unm: the exact negation, delivered as a FLAC__uint64 for INT64_MIN, whose
      negation has no FLAC__int64 form. */
  function Unm(a: i64): (r: Value)
    ensures r.UInt64? <==> a == INT64_MIN
    ensures r.UInt64? ==> r.u == -(a as int)
    ensures !r.UInt64? ==> r == Int64(-(a as int))
  {
    if a == INT64_MIN then UInt64(Wrap64(-(a as int))) else Int64(WrapS64(-(a as int)))
  }

  /** The two negations undo each other: negating an unsigned value in range and then
      negating the signed result gives the original number back. */
  lemma NegationRoundTrip(a: u64)
    requires a <= TWO_63
    ensures U.Unm(a).Ok?
    ensures a == TWO_63 ==> Unm(U.Unm(a).value) == UInt64(a)
    ensures a < TWO_63 ==> Unm(U.Unm(a).value) == Int64(a)
  {
  }

  /** __pow: exponentiation by squaring with wrap-around products; a negative exponent is
      refused before the loop. */
  method Pow(base: i64, exp: i64) returns (r: Result<i64>)
    ensures exp < 0 <==> r.Err?
    ensures r.Err? ==> r.failure == Raised("exp must be positive")
    ensures r.Ok? ==> r.value == WrapS64(Power(base, exp))
  {
    if exp < 0 {
      return Err(Raised("exp must be positive"));
    }
    var result: i64 := 1;
    var b: i64, e: i64 := base, exp;
    while true
      invariant e >= 0
      invariant (result * Power(b, e)) % TWO_64 == Power(base, exp) % TWO_64
      decreases e
    {
      ghost var result0, e0 := result, e;
      if e % 2 == 1 {
        result := Mul(result, b);
        WrapS64Mod(result0 * b);
      }
      e := e / 2;
      var square := Mul(b, b);
      WrapS64Mod(b * b);
      PowStep(result0, b, e0, result, square, TWO_64);
      if e == 0 {
        assert result % TWO_64 == Power(base, exp) % TWO_64;
        WrapS64Congruent(result, Power(base, exp));
        break;
      }
      b := square;
    }
    r := Ok(result);
  }
}
