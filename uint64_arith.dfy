/** The FLAC__uint64 metamethods (__add ... __shr, __unm, __pow) on operands already
    converted by luaflac_touint64 (see Int64Convert.UInt64Of). Unsigned C arithmetic
    wraps modulo 2^64; division and remainder by zero and shifts by 64 or more are
    undefined in C and are excluded by preconditions. */
module UInt64Arith {
  import opened MachineInt
  import opened BitOps
  import opened ModArith
  import opened Lua

  /** __add: the sum with the carry out of bit 63 dropped. */
  function Add(a: u64, b: u64): (r: u64)
    ensures a + b < TWO_64 ==> r == a + b
    ensures a + b >= TWO_64 ==> r == a + b - TWO_64
  {
    Wrap64(a + b)
  }

  /** __sub: the difference, borrowing 2^64 when b exceeds a; adding b back restores a. */
  function Sub(a: u64, b: u64): (r: u64)
    ensures b <= a ==> r == a - b
    ensures a < b ==> r == a - b + TWO_64
    ensures Add(r, b) == a
  {
    Wrap64(a - b)
  }

  /** __mul: the product modulo 2^64, exact when it fits. */
  function Mul(a: u64, b: u64): (r: u64)
    ensures a * b < TWO_64 ==> r == a * b
    ensures (a * b - r) % TWO_64 == 0
  {
    Wrap64(a * b)
  }

  /** __div and __idiv: the quotient rounded down. */
  function Div(a: u64, b: u64): (r: u64)
    requires b != 0
    ensures r * b <= a < (r + 1) * b
  {
    a / b
  }

  /** __mod: the remainder that completes the quotient of Div. */
  function Mod(a: u64, b: u64): (r: u64)
    requires b != 0
    ensures r < b && Div(a, b) * b + r == a
  {
    a % b
  }

  /** __band */
  function BAnd(a: u64, b: u64): (r: u64)
    ensures r <= a && r <= b
  {
    BitAnd(a, b, 64)
  }

  /** __bor: AND and OR of two words add up to their sum. */
  function BOr(a: u64, b: u64): (r: u64)
    ensures a <= r && b <= r
    ensures BAnd(a, b) + r == a + b
  {
    Pow2Values();
    AndOrXorSum(a, b, 64);
    BitOr(a, b, 64)
  }

  /** __bxor: OR without AND. */
  function BXor(a: u64, b: u64): (r: u64)
    ensures r == BOr(a, b) - BAnd(a, b)
  {
    Pow2Values();
    AndOrXorSum(a, b, 64);
    BitXor(a, b, 64)
  }

  /** XOR with the same mask twice gives back a. */
  lemma XorTwice(a: u64, b: u64)
    ensures BXor(BXor(a, b), b) == a
  {
    Pow2Values();
    XorInvolution(a, b, 64);
  }

  /** __bnot: every bit flipped, i.e. UINT64_MAX - a. */
  function BNot(a: u64): (r: u64)
    ensures r == UINT64_MAX - a
  {
    Pow2Values();
    BitNot(a, 64)
  }

  /** __shl: a << b as C defines it for unsigned operands. */
  function Shl(a: u64, b: u64): (r: u64)
    requires b < 64
    ensures a < Pow2(64 - b) ==> r == a * Pow2(b)
  {
    var d := Pow2(b);
    if a < Pow2(64 - b) then
      ShiftFits(a, b);
      Wrap64(a * d)
    else Wrap64(a * d)
  }

  /** A number below 2^(64 - b), scaled by 2^b, stays below 2^64. */
  lemma ShiftFits(a: nat, b: nat)
    requires b <= 64 && a < Pow2(64 - b)
    ensures a * Pow2(b) < TWO_64
  {
    var d, e := Pow2(b), Pow2(64 - b);
    MulMonotone(a + 1, e, d);
    assert a * d < (a + 1) * d by {
      assert (a + 1) * d == a * d + d;
    }
    assert e * d == TWO_64 by {
      Pow2Add(64 - b, b);
      Pow2Values();
    }
  }

  /** __shr: a >> b as C defines it for unsigned operands. */
  function Shr(a: u64, b: u64): (r: u64)
    requires b < 64
    ensures r * Pow2(b) <= a < (r + 1) * Pow2(b)
  {
    var d := Pow2(b);
    DivAtMost(a, d);
    var q := a / d;
    q
  }

  /** Shifting left then right by the same amount keeps only the low 64 - b bits. */
  lemma ShlThenShr(a: u64, b: u64)
    requires b < 64
    ensures Shr(Shl(a, b), b) == a % Pow2(64 - b)
  {
    Pow2Add(b, 64 - b);
    Pow2Values();
    ScaleThenDivide(a, Pow2(b), Pow2(64 - b));
  }

  /** Shifting right then left by the same amount clears the low b bits. */
  lemma ShrThenShl(a: u64, b: u64)
    requires b < 64
    ensures Shl(Shr(a, b), b) == a - a % Pow2(b)
  {
    var d := Pow2(b);
    RoundDown(a, d);
    var q := a / d;
    assert Shr(a, b) == q;
    assert 0 <= q * d <= a;
    assert Shl(q, b) == Wrap64(q * d);
  }

  /** __unm: the negation as a FLAC__int64, refused above 2^63. */
  function Unm(a: u64): (r: Result<i64>)
    ensures r.Ok? <==> a <= TWO_63
    ensures r.Ok? ==> r.value == -(a as int)
    ensures r.Err? ==> r == Err(Raised("out of range"))
  {
    if a > TWO_63 then Err(Raised("out of range")) else Ok(ToSigned(Wrap64(-(a as int))))
  }

  /** __pow: exponentiation by squaring, every product taken modulo 2^64. */
  method Pow(base: u64, exp: u64) returns (r: u64)
    ensures r == Power(base, exp) % TWO_64
  {
    var result: u64 := 1;
    var b: u64, e: u64 := base, exp;
    while true
      invariant (result * Power(b, e)) % TWO_64 == Power(base, exp) % TWO_64
      decreases e
    {
      ghost var result0, e0 := result, e;
      if e % 2 == 1 {
        result := Mul(result, b);
      }
      e := e / 2;
      var square := Mul(b, b);
      Wrap64Mod(result0 * b);
      Wrap64Mod(b * b);
      PowStep(result0, b, e0, result, square, TWO_64);
      if e == 0 {
        assert (result * Power(square, e)) % TWO_64 == result;
        break;
      }
      b := square;
    }
    r := result;
  }
}
