/** Decimal digit strings: the shortest decimal form of a natural number and the value
    of a digit string, with the facts that make one the inverse of the other. */
module DecimalText {
  import opened MachineInt

  predicate IsDigit(c: char) {
    '0' <= c <= '9'
  }

  predicate AllDigits(s: string) {
    forall i :: 0 <= i < |s| ==> IsDigit(s[i])
  }

  /** The digits table of the formatter. */
  const DIGITS: string := "0123456789"

  function DigitChar(d: nat): (c: char)
    requires d < 10
    ensures IsDigit(c) && c as int - '0' as int == d
  {
    DIGITS[d]
  }

  function DigitValue(c: char): (d: nat)
    requires IsDigit(c)
    ensures d < 10 && DigitChar(d) == c
  {
    c as int - '0' as int
  }

  /** A canonical numeral: at least one digit and no leading zero unless it is "0". */
  predicate Canonical(s: string) {
    |s| >= 1 && AllDigits(s) && (s[0] == '0' ==> |s| == 1)
  }

  /** The shortest decimal form of v, most significant digit first. */
  function Decimal(v: nat): (s: string)
    ensures Canonical(s)
    ensures v < 10 <==> |s| == 1
  {
    if v < 10 then [DigitChar(v)] else Decimal(v / 10) + [DigitChar(v % 10)]
  }

  /** v with its last n decimal digits dropped. */
  function Shift(v: nat, n: nat): nat
  {
    if n == 0 then v else Shift(v / 10, n - 1)
  }

  /** The last n decimal digits of v (with leading zeros once v runs out), most
      significant first: what a formatter that emits the last digit first has written
      after n steps. */
  function LastDigits(v: nat, n: nat): (s: string)
    ensures |s| == n
  {
    if n == 0 then [] else LastDigits(v / 10, n - 1) + [DigitChar(v % 10)]
  }

  lemma {:induction false} ShiftNext(v: nat, n: nat)
    ensures Shift(v, n + 1) == Shift(v, n) / 10
    decreases n
  {
    if n > 0 {
      ShiftNext(v / 10, n - 1);
    }
  }

  /** One more step of the formatter puts the next digit in front of those written. */
  lemma {:induction false} LastDigitsNext(v: nat, n: nat)
    ensures LastDigits(v, n + 1) == [DigitChar(Shift(v, n) % 10)] + LastDigits(v, n)
    decreases n
  {
    if n > 0 {
      LastDigitsNext(v / 10, n - 1);
      assert LastDigits(v, n + 1) == LastDigits(v / 10, n) + [DigitChar(v % 10)];
    }
  }

  /** Stopping at the first step where nothing is left gives the shortest form. */
  lemma {:induction false} LastDigitsAreDecimal(v: nat, n: nat)
    requires n >= 1 && Shift(v, n) == 0
    requires n == 1 || Shift(v, n - 1) != 0
    ensures LastDigits(v, n) == Decimal(v)
    decreases n
  {
    if v < 10 {
      if n > 1 {
        assert false;
      }
    } else {
      assert n > 1;
      LastDigitsAreDecimal(v / 10, n - 1);
    }
  }

  /** Something is left after n steps only when v has more than n digits. */
  lemma {:induction false} ShiftLeavesSome(v: nat, n: nat)
    requires Shift(v, n) != 0
    ensures v >= Power(10, n)
    decreases n
  {
    if n > 0 {
      ShiftLeavesSome(v / 10, n - 1);
      var q := v / 10;
      var p := Power(10, n - 1);
      assert q >= p && v >= 10 * q;
      assert Power(10, n) == 10 * p;
    }
  }

  /** A FLAC__uint64 is used up after at most 20 steps. */
  lemma UInt64ShiftBound(v: u64, n: nat)
    requires Shift(v, n) != 0
    ensures n < 20
  {
    if n >= 20 {
      ShiftLeavesSome(v, n);
      PowerTen19();
      PowerAdd(10, 20, n - 20);
      PowerAdd(10, 19, 1);
      PowerPositive(10, n - 20);
      assert false;
    }
  }

  lemma {:induction false} PowerPositive(b: nat, e: nat)
    requires b >= 1
    ensures Power(b, e) >= 1
    decreases e
  {
    if e > 0 {
      PowerPositive(b, e - 1);
      var p := Power(b, e - 1);
      assert b * p >= p;
    }
  }

  /** The value of a digit string, most significant digit first. */
  function DigitsValue(s: string): nat
    requires AllDigits(s)
  {
    if s == [] then 0 else 10 * DigitsValue(s[..|s| - 1]) + DigitValue(s[|s| - 1])
  }

  /** Reading back the shortest form gives the number. */
  lemma {:induction false} DecimalValue(v: nat)
    ensures DigitsValue(Decimal(v)) == v
    decreases v
  {
    if v >= 10 {
      DecimalValue(v / 10);
      var s := Decimal(v);
      assert s[..|s| - 1] == Decimal(v / 10);
    }
  }

  lemma {:induction false} LeadingDigitNonZero(s: string)
    requires AllDigits(s) && |s| >= 1 && s[0] != '0'
    ensures DigitsValue(s) >= 1
    decreases |s|
  {
    if |s| > 1 {
      LeadingDigitNonZero(s[..|s| - 1]);
    }
  }

  /** A canonical numeral is the shortest form of its value: the shortest form is the
      only canonical spelling of a number. */
  lemma {:induction false} CanonicalIsDecimal(s: string)
    requires Canonical(s)
    ensures Decimal(DigitsValue(s)) == s
    decreases |s|
  {
    if |s| > 1 {
      var init := s[..|s| - 1];
      LeadingDigitNonZero(init);
      CanonicalIsDecimal(init);
      var v := DigitsValue(s);
      assert v / 10 == DigitsValue(init) && v % 10 == DigitValue(s[|s| - 1]);
    }
  }

  /** The shortest form of v has at most k digits exactly when v < 10^k. */
  lemma {:induction false} DecimalLength(v: nat, k: nat)
    requires k >= 1
    ensures |Decimal(v)| <= k <==> v < Power(10, k)
    decreases v
  {
    PowerOfTenAtLeastTen(k);
    if v >= 10 && k > 1 {
      DecimalLength(v / 10, k - 1);
      var p := Power(10, k - 1);
      assert Power(10, k) == 10 * p;
      assert v < 10 * p <==> v / 10 < p;
    }
  }

  lemma {:induction false} PowerOfTenAtLeastTen(k: nat)
    requires k >= 1
    ensures Power(10, k) >= 10
    decreases k
  {
    if k > 1 {
      PowerOfTenAtLeastTen(k - 1);
    }
  }

  lemma PowerTen19()
    ensures Power(10, 19) == 10_000_000_000_000_000_000
  {
    assert Power(10, 5) == 100_000;
    PowerAdd(10, 5, 5);
    PowerAdd(10, 10, 5);
    PowerAdd(10, 15, 4);
  }

  /** Every FLAC__uint64 has at most 20 decimal digits, and some have exactly 20. */
  lemma UInt64DecimalLength(v: u64)
    ensures |Decimal(v)| <= 20
    ensures v >= 10_000_000_000_000_000_000 ==> |Decimal(v)| == 20
  {
    PowerTen19();
    PowerAdd(10, 19, 1);
    DecimalLength(v, 20);
    if v >= 10_000_000_000_000_000_000 {
      DecimalLength(v, 19);
    }
  }

  /** The decimal form of a signed number: '-' and the magnitude's digits when it is
      negative (also how Lua renders a lua_Integer as a string, "%lld"). */
  function SignedDecimal(v: int): (s: string)
    ensures v < 0 ==> |s| == |Decimal(-v)| + 1 && s[0] == '-' && s[1..] == Decimal(-v)
    ensures v >= 0 ==> s == Decimal(v)
  {
    if v < 0 then "-" + Decimal(-v) else Decimal(v)
  }
}
