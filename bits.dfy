/** C's bitwise operators on unsigned words of n bits, defined bit by bit from the
    least significant bit up: bit k of the result is computed from bit k of the
    operands. */
module BitOps {
  import opened MachineInt

  function BitAnd(a: nat, b: nat, n: nat): (r: nat)
    ensures r < Pow2(n)
    ensures r <= a && r <= b
  {
    if n == 0 then 0
    else 2 * BitAnd(a / 2, b / 2, n - 1) + (if a % 2 == 1 && b % 2 == 1 then 1 else 0)
  }

  function BitOr(a: nat, b: nat, n: nat): (r: nat)
    ensures r < Pow2(n)
    ensures a < Pow2(n) ==> a <= r
    ensures b < Pow2(n) ==> b <= r
  {
    if n == 0 then 0
    else 2 * BitOr(a / 2, b / 2, n - 1) + (if a % 2 == 1 || b % 2 == 1 then 1 else 0)
  }

  function BitXor(a: nat, b: nat, n: nat): (r: nat)
    ensures r < Pow2(n)
  {
    if n == 0 then 0
    else 2 * BitXor(a / 2, b / 2, n - 1) + (if a % 2 != b % 2 then 1 else 0)
  }

  function BitNot(a: nat, n: nat): (r: nat)
    requires a < Pow2(n)
    ensures r == Pow2(n) - 1 - a
  {
    if n == 0 then 0 else 2 * BitNot(a / 2, n - 1) + (1 - a % 2)
  }

  /** Every bit set in a or b is set in exactly one of (a AND b) and (a XOR b) plus
      once more in (a OR b): AND + OR == a + b, and XOR == OR - AND. */
  lemma {:induction false} AndOrXorSum(a: nat, b: nat, n: nat)
    requires a < Pow2(n) && b < Pow2(n)
    ensures BitAnd(a, b, n) + BitOr(a, b, n) == a + b
    ensures BitXor(a, b, n) == BitOr(a, b, n) - BitAnd(a, b, n)
  {
    if n > 0 {
      AndOrXorSum(a / 2, b / 2, n - 1);
      var ha, hb, la, lb := a / 2, b / 2, a % 2, b % 2;
      assert a == 2 * ha + la && b == 2 * hb + lb;
      var and, or, xor := BitAnd(ha, hb, n - 1), BitOr(ha, hb, n - 1), BitXor(ha, hb, n - 1);
      assert BitAnd(a, b, n) == 2 * and + (if la == 1 && lb == 1 then 1 else 0);
      assert BitOr(a, b, n) == 2 * or + (if la == 1 || lb == 1 then 1 else 0);
      assert BitXor(a, b, n) == 2 * xor + (if la != lb then 1 else 0);
    }
  }

  /** XOR with the same mask twice restores the word. */
  lemma {:induction false} XorInvolution(a: nat, b: nat, n: nat)
    requires a < Pow2(n)
    ensures BitXor(BitXor(a, b, n), b, n) == a
  {
    if n > 0 {
      var x := BitXor(a / 2, b / 2, n - 1);
      XorInvolution(a / 2, b / 2, n - 1);
      var r := BitXor(a, b, n);
      assert r / 2 == x && r % 2 == (if a % 2 != b % 2 then 1 else 0);
    }
  }

  /** The top bit of an n-bit AND is set exactly when it is set in both operands (the
      sign rule of & on two's-complement words). */
  lemma {:induction false} AndTopBit(a: nat, b: nat, n: nat)
    requires n >= 1 && a < Pow2(n) && b < Pow2(n)
    ensures BitAnd(a, b, n) >= Pow2(n - 1) <==> a >= Pow2(n - 1) && b >= Pow2(n - 1)
  {
    if n > 1 {
      AndTopBit(a / 2, b / 2, n - 1);
      assert Pow2(n - 1) == 2 * Pow2(n - 2);
    }
  }

  /** The top bit of an n-bit OR is set exactly when it is set in either operand. */
  lemma {:induction false} OrTopBit(a: nat, b: nat, n: nat)
    requires n >= 1 && a < Pow2(n) && b < Pow2(n)
    ensures BitOr(a, b, n) >= Pow2(n - 1) <==> a >= Pow2(n - 1) || b >= Pow2(n - 1)
  {
    if n > 1 {
      OrTopBit(a / 2, b / 2, n - 1);
      assert Pow2(n - 1) == 2 * Pow2(n - 2);
    }
  }

  /** The top bit of an n-bit XOR is set exactly when it is set in one operand only. */
  lemma {:induction false} XorTopBit(a: nat, b: nat, n: nat)
    requires n >= 1 && a < Pow2(n) && b < Pow2(n)
    ensures BitXor(a, b, n) >= Pow2(n - 1) <==> (a >= Pow2(n - 1)) != (b >= Pow2(n - 1))
  {
    if n > 1 {
      XorTopBit(a / 2, b / 2, n - 1);
      assert Pow2(n - 1) == 2 * Pow2(n - 2);
    }
  }
}
