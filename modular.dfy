/** Congruence facts behind the wrap-around multiplication loops: reducing a factor
    modulo m before multiplying, or reducing the base before raising it to a power,
    does not change the product modulo m. */
module ModArith {
  import opened MachineInt

  lemma {:induction false} MulAtLeast(t: nat, m: nat)
    requires t >= 1
    ensures t * m >= m
    decreases t
  {
    if t > 1 {
      MulAtLeast(t - 1, m);
      assert t * m == (t - 1) * m + m;
    }
  }

  lemma ProductMagnitude(t: int, m: int)
    requires m > 0
    ensures t == 0 || t * m >= m || t * m <= -m
  {
    if t > 0 {
      MulAtLeast(t, m);
    } else if t < 0 {
      MulAtLeast(-t, m);
      assert (-t) * m == -(t * m);
    }
  }

  /** The remainder is determined by any quotient-remainder decomposition. */
  lemma ModUnique(x: int, d: int, r: int, m: int)
    requires m > 0 && 0 <= r < m && x == d * m + r
    ensures x % m == r
  {
    var d', r' := x / m, x % m;
    assert d * m - d' * m == r' - r;
    assert (d - d') * m == d * m - d' * m;
    ProductMagnitude(d - d', m);
  }

  lemma AddMultiple(k: int, y: int, m: int)
    requires m > 0
    ensures (k * m + y) % m == y % m
  {
    var q, r := y / m, y % m;
    assert y == q * m + r;
    assert k * m + y == (k + q) * m + r;
    ModUnique(k * m + y, k + q, r, m);
  }

  lemma MulReduceLeft(a: int, b: int, m: int)
    requires m > 0
    ensures (a * b) % m == ((a % m) * b) % m
  {
    var q, r := a / m, a % m;
    assert a == q * m + r;
    assert a * b == (q * b) * m + r * b;
    AddMultiple(q * b, r * b, m);
  }

  lemma MulReduce(a: int, b: int, m: int)
    requires m > 0
    ensures (a * b) % m == ((a % m) * (b % m)) % m
  {
    MulReduceLeft(a, b, m);
    MulReduceLeft(b, a % m, m);
    assert (a % m) * b == b * (a % m);
    assert (b % m) * (a % m) == (a % m) * (b % m);
  }

  /** Replacing both factors by congruent ones keeps the product's residue. */
  lemma ProductCongruent(x: int, y: int, x': int, y': int, m: int)
    requires m > 0 && x % m == x' % m && y % m == y' % m
    ensures (x * y) % m == (x' * y') % m
  {
    MulReduce(x, y, m);
    MulReduce(x', y', m);
  }

  lemma ModOfMod(a: int, m: int)
    requires m > 0
    ensures (a % m) % m == a % m
  {
    var r := a % m;
    ModUnique(r, 0, r, m);
  }

  lemma {:induction false} PowerReduce(a: int, e: nat, m: int)
    requires m > 0
    ensures Power(a % m, e) % m == Power(a, e) % m
    decreases e
  {
    if e > 0 {
      PowerReduce(a, e - 1, m);
      ModOfMod(a, m);
      ProductCongruent(a % m, Power(a % m, e - 1), a, Power(a, e - 1), m);
    }
  }

  lemma {:induction false} PowerSquare(b: int, k: nat)
    ensures Power(b, 2 * k) == Power(b * b, k)
    ensures Power(b, 2 * k + 1) == b * Power(b * b, k)
    decreases k
  {
    if k > 0 {
      PowerSquare(b, k - 1);
      calc {
        Power(b, 2 * k);
        b * (b * Power(b, 2 * (k - 1)));
        (b * b) * Power(b * b, k - 1);
      }
    }
  }

  /** The quotient is determined by any quotient-remainder decomposition. */
  lemma DivUnique(x: int, d: int, r: int, m: int)
    requires m > 0 && 0 <= r < m && x == d * m + r
    ensures x / m == d
  {
    ModUnique(x, d, r, m);
    assert x == (x / m) * m + x % m;
    assert (x / m - d) * m == 0;
    ProductMagnitude(x / m - d, m);
  }

  /** One round of exponentiation by squaring, with every product kept only modulo m:
      if the exponent's low bit is set the running result takes one factor of the
      base, then the base is squared and the exponent halved. */
  lemma PowStep(result: int, base: int, exp: nat, result': int, base': int, m: int)
    requires m > 0
    requires result' % m == (if exp % 2 == 1 then result * base else result) % m
    requires base' % m == (base * base) % m
    ensures (result' * Power(base', exp / 2)) % m == (result * Power(base, exp)) % m
  {
    var k := exp / 2;
    PowerSquare(base, k);
    PowerReduce(base', k, m);
    PowerReduce(base * base, k, m);
    var p := Power(base * base, k);
    assert Power(base', k) % m == p % m;
    calc {
      (result' * Power(base', k)) % m;
      { MulReduce(result', Power(base', k), m); }
      ((result' % m) * (Power(base', k) % m)) % m;
      ((result' % m) * (p % m)) % m;
      { MulReduce(if exp % 2 == 1 then result * base else result, p, m); }
      ((if exp % 2 == 1 then result * base else result) * p) % m;
      { assert (if exp % 2 == 1 then result * base else result) * p == result * Power(base, exp); }
      (result * Power(base, exp)) % m;
    }
  }

  lemma MulMonotone(x: int, y: int, p: nat)
    requires x <= y
    ensures x * p <= y * p
  {
    if x < y && p > 0 {
      MulAtLeast(y - x, p);
      assert y * p - x * p == (y - x) * p;
    }
  }

  lemma DivAtMost(a: nat, p: nat)
    requires p >= 1
    ensures 0 <= a / p <= a
  {
    var d := a / p;
    assert a == d * p + a % p;
    if d > 0 {
      MulAtLeast(p, d);
      assert p * d == d * p;
    }
  }

  /** Rounding down to a multiple of p removes exactly the remainder. */
  lemma RoundDown(a: nat, p: nat)
    requires p >= 1
    ensures (a / p) * p == a - a % p
    ensures 0 <= (a / p) * p <= a
  {
    var q, r := a / p, a % p;
    assert 0 <= r < p && 0 <= q;
    assert a == q * p + r;
  }

  /** Scaling by p inside a word of p * q values, then dividing by p, keeps the low
      part of a modulo q. */
  lemma ScaleThenDivide(a: nat, p: nat, q: nat)
    requires p >= 1 && q >= 1
    ensures ((a * p) % (p * q)) / p == a % q
  {
    var m := p * q;
    var hi, lo := a / q, a % q;
    assert a == hi * q + lo;
    calc {
      a * p;
      (hi * q + lo) * p;
      hi * (q * p) + lo * p;
      { assert q * p == m; }
      hi * m + lo * p;
    }
    MulMonotone(lo, q - 1, p);
    assert (q - 1) * p == m - p;
    ModUnique(a * p, hi, lo * p, m);
    DivUnique(lo * p, lo, 0, p);
  }

  /** A two's-complement word is congruent modulo 2^64 to what was wrapped into it. */
  lemma WrapS64Mod(x: int)
    ensures WrapS64(x) % TWO_64 == x % TWO_64
  {
    var w := x % TWO_64;
    if w >= TWO_63 {
      ModUnique(w - TWO_64, -1, w, TWO_64);
    }
  }

  /** The unsigned reading of a signed word is its residue modulo 2^64. */
  lemma ToUnsignedMod(i: i64)
    ensures ToUnsigned(i) == i % TWO_64
  {
    if i < 0 {
      ModUnique(i, -1, i + TWO_64, TWO_64);
    }
  }

  /** A quotient is below c when the dividend is below c copies of the divisor. */
  lemma DivBelow(x: nat, p: nat, c: nat)
    requires p >= 1 && x < c * p
    ensures x / p < c
  {
    var q := x / p;
    assert x == q * p + x % p;
    if q >= c {
      MulMonotone(c, q, p);
    }
  }

  /** Wrapping into 64 bits keeps the residue. */
  lemma Wrap64Mod(x: int)
    ensures Wrap64(x) % TWO_64 == x % TWO_64
  {
  }

  function Abs(x: int): nat {
    if x < 0 then -x else x
  }

  /** C's integer quotient: the mathematical quotient truncated toward zero. */
  function TruncDiv(a: int, b: int): int
    requires b != 0
  {
    if (a < 0) == (b < 0) then Abs(a) / Abs(b) else -(Abs(a) / Abs(b))
  }

  /** The remainder left by the truncated quotient is smaller than the divisor in
      magnitude and never has the opposite sign of the dividend. */
  lemma TruncDivRemainder(a: int, b: int)
    requires b != 0
    ensures Abs(a - TruncDiv(a, b) * b) < Abs(b)
    ensures a - TruncDiv(a, b) * b == 0 || (a - TruncDiv(a, b) * b < 0 <==> a < 0)
  {
    var n: int, d: int := Abs(a), Abs(b);
    var m, rem := n / d, n % d;
    assert n == m * d + rem;
    var q := TruncDiv(a, b);
    if a < 0 && b < 0 {
      assert q * b == m * (-d) == -(m * d);
    } else if a < 0 {
      assert q * b == (-m) * d == -(m * d);
    } else if b < 0 {
      assert q * b == (-m) * (-d) == m * d;
    } else {
      assert q * b == m * d;
    }
  }

  /** The truncated quotient is no larger in magnitude than the dividend, and equal to
      it only for a zero dividend or a divisor of magnitude 1. */
  lemma TruncDivMagnitude(a: int, b: int)
    requires b != 0
    ensures Abs(TruncDiv(a, b)) <= Abs(a)
    ensures Abs(TruncDiv(a, b)) == Abs(a) ==> Abs(a) == 0 || Abs(b) == 1
  {
    var n: int, d: int := Abs(a), Abs(b);
    var m := n / d;
    assert Abs(TruncDiv(a, b)) == m;
    DivAtMost(n, d);
    if n != 0 && d != 1 {
      DivShrinks(n, d);
    }
  }

  /** Dividing a positive number by at least 2 makes it strictly smaller. */
  lemma DivShrinks(n: nat, d: nat)
    requires n > 0 && d >= 2
    ensures n / d < n
  {
    var m := n / d;
    assert n == m * d + n % d;
    MulMonotone(2, d, m);
    assert 2 * m <= d * m == m * d <= n;
  }
}
