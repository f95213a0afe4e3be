/** The pieces of the C library the binding leans on: isspace in the "C" locale, the
    NUL-terminated view of a Lua string, and strtoull with base 10. They are library
    behaviour, written out here so that the binding's own code can be stated against
    them. */
module CLib {
  import opened MachineInt
  import opened DecimalText

  /** isspace in the "C" locale: space, \t, \n, \v, \f and \r. */
  predicate IsSpace(c: char) {
    c == ' ' || 9 <= c as int <= 13
  }

  /** What C code sees of a Lua string through lua_tostring: the bytes before the first
      NUL. */
  function CString(s: string): (r: string)
    ensures |r| <= |s| && r == s[..|r|]
    ensures forall i :: 0 <= i < |r| ==> r[i] != '\0'
    ensures |r| < |s| ==> s[|r|] == '\0'
  {
    if s == [] || s[0] == '\0' then [] else [s[0]] + CString(s[1..])
  }

  /** The number of leading whitespace characters. */
  function SpaceRun(s: string): (n: nat)
    ensures n <= |s|
    ensures forall i :: 0 <= i < n ==> IsSpace(s[i])
    ensures n < |s| ==> !IsSpace(s[n])
  {
    if s == [] || !IsSpace(s[0]) then 0 else 1 + SpaceRun(s[1..])
  }

  /** The number of leading decimal digits. */
  function DigitRun(s: string): (n: nat)
    ensures n <= |s|
    ensures AllDigits(s[..n])
    ensures n < |s| ==> !IsDigit(s[n])
  {
    if s == [] || !IsDigit(s[0]) then 0
    else
      var n := 1 + DigitRun(s[1..]);
      assert s[..n] == [s[0]] + s[1..][..n - 1];
      n
  }

  /** The outcome of strtoull: the value returned, how many characters were consumed
      (what `end - s` reports; 0 when no digits were found) and whether errno was set
      to ERANGE. */
  datatype Conversion = Conversion(value: u64, consumed: nat, erange: bool)

  /** strtoull(s, &end, 10): optional leading whitespace, an optional sign, then the
      longest run of digits. A magnitude above UINT64_MAX gives UINT64_MAX and ERANGE;
      a '-' sign negates the magnitude modulo 2^64. */
  function StrToULL(s: string): (r: Conversion)
    ensures r.consumed <= |s|
    ensures r.erange ==> r.value == UINT64_MAX
  {
    var k := SpaceRun(s);
    if k < |s| && s[k] == '-' then DigitsAt(s, k + 1, true)
    else if k < |s| && s[k] == '+' then DigitsAt(s, k + 1, false)
    else DigitsAt(s, k, false)
  }

  /** The digit run strtoull reads from position j on, after the sign. */
  function DigitsAt(s: string, j: nat, negative: bool): (r: Conversion)
    requires j <= |s|
    ensures r.consumed <= |s|
    ensures r.erange ==> r.value == UINT64_MAX
  {
    var n := DigitRun(s[j..]);
    if n == 0 then Conversion(0, 0, false)
    else
      assert s[j..j + n] == s[j..][..n];
      var magnitude: int := DigitsValue(s[j..j + n]);
      if magnitude > UINT64_MAX then Conversion(UINT64_MAX, j + n, true)
      else Conversion(if negative then Wrap64(-magnitude) else magnitude, j + n, false)
  }

  predicate AllSpace(w: string) {
    forall i :: 0 <= i < |w| ==> IsSpace(w[i])
  }

  /** Whitespace in front of a string passes into its C view unchanged. */
  lemma {:induction false} CStringSpacePrefix(w: string, s: string)
    requires AllSpace(w)
    ensures CString(w + s) == w + CString(s)
    decreases |w|
  {
    if w != [] {
      assert IsSpace(w[0]) && w[0] != '\0';
      assert (w + s)[0] == w[0] && (w + s)[1..] == w[1..] + s;
      CStringSpacePrefix(w[1..], s);
      assert CString(w + s) == [w[0]] + CString(w[1..] + s);
      assert w == [w[0]] + w[1..];
    } else {
      assert w + s == s;
    }
  }

  /** A whitespace prefix lengthens the leading whitespace run by its own length. */
  lemma {:induction false} SpaceRunPrefix(w: string, s: string)
    requires AllSpace(w)
    ensures SpaceRun(w + s) == |w| + SpaceRun(s)
    decreases |w|
  {
    if w != [] {
      assert IsSpace(w[0]);
      assert (w + s)[0] == w[0] && (w + s)[1..] == w[1..] + s;
      SpaceRunPrefix(w[1..], s);
    } else {
      assert w + s == s;
    }
  }

  /** A canonical numeral from position j to the end is read in full. */
  lemma ReadsNumeralAt(s: string, j: nat, negative: bool)
    requires j <= |s| && Canonical(s[j..])
    ensures var v: int := DigitsValue(s[j..]);
      DigitsAt(s, j, negative)
        == if v > UINT64_MAX then Conversion(UINT64_MAX, |s|, true)
           else Conversion(if negative then Wrap64(-v) else v, |s|, false)
  {
    assert DigitRun(s[j..]) == |s| - j;
    assert s[j..|s|] == s[j..];
  }

  /** strtoull reads a canonical numeral in full. */
  lemma ReadsNumeral(s: string)
    requires Canonical(s)
    ensures DigitsValue(s) <= UINT64_MAX ==> StrToULL(s) == Conversion(DigitsValue(s), |s|, false)
    ensures DigitsValue(s) > UINT64_MAX ==> StrToULL(s) == Conversion(UINT64_MAX, |s|, true)
  {
    assert SpaceRun(s) == 0;
    assert s[0..] == s;
    ReadsNumeralAt(s, 0, false);
  }

  /** strtoull reads '-' followed by a canonical numeral in full and negates it modulo
      2^64. */
  lemma ReadsNegatedNumeral(s: string)
    requires Canonical(s) && DigitsValue(s) <= UINT64_MAX
    ensures StrToULL("-" + s) == Conversion(Wrap64(-(DigitsValue(s) as int)), |s| + 1, false)
  {
    var t := "-" + s;
    assert t[0] == '-' && !IsSpace(t[0]);
    assert SpaceRun(t) == 0;
    assert StrToULL(t) == DigitsAt(t, 1, true);
    assert t[1..] == s;
    ReadsNumeralAt(t, 1, true);
    assert |t| == |s| + 1;
  }
}
