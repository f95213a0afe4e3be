/** luaflac_touint64 and luaflac_toint64: how any Lua value becomes a FLAC__uint64 or a
    FLAC__int64 operand. Both are total on Lua values; every refusal is a Lua error with
    the binding's message. */
module Int64Convert {
  import opened MachineInt
  import opened DecimalText
  import opened CLib
  import opened Lua

  /** The string path of luaflac_touint64, on the C string seen through lua_tostring:
      leading whitespace is skipped; nothing left, a '-' sign, an overflow reported by
      strtoull, or no digit at all is refused; otherwise the value of the leading digit
      run (after an optional '+'). */
  function ParseUInt64(str: string): Result<u64>
  {
    var c := CString(str);
    var k := SpaceRun(c);
    if k == |c| then Err(Raised("invalid string, " + c + " has no characters"))
    else if c[k] == '-' then Err(Raised("invalid string, " + c + " is negative"))
    else
      var conv := StrToULL(c[k..]);
      if conv.erange then Err(Raised("invalid integer string"))
      else if conv.consumed == 0 then Err(Raised("invalid string"))
      else Ok(conv.value)
  }

  /** luaflac_touint64 (none and nil read as 0, booleans as 0 or 1, integers keep their
      bits, a negative FLAC__int64 is out of range, strings are parsed, anything else is
      an invalid value). */
  function UInt64Of(v: Value): (r: Result<u64>)
    ensures v.Nil? ==> r == Ok(0)
    ensures v.Boolean? ==> r == Ok(if v.b then 1 else 0)
    ensures v.Integer? ==> r.Ok? && ToSigned(r.value) == v.i
    ensures v.UInt64? ==> r == Ok(v.u)
    ensures v.Int64? ==> (r.Ok? <==> v.v >= 0) && (r.Ok? ==> r.value == v.v)
    ensures v.Int64? && v.v < 0 ==> r == Err(Raised("out of range"))
    ensures v.Table? || v.Other? ==> r == Err(Raised("invalid value"))
  {
    match v
    case Nil => Ok(0)
    case Boolean(b) => Ok(if b then 1 else 0)
    case Integer(i) => Ok(Wrap64(i))
    case UInt64(u) => Ok(u)
    case Int64(x) => if x < 0 then Err(Raised("out of range")) else Ok(x)
    case Str(s) => ParseUInt64(s)
    case _ => Err(Raised("invalid value"))
  }

  /** luaflac_touint64 as the C code runs it: the whitespace is skipped by a loop that
      advances a pointer until the terminating NUL or a non-space character. */
  method ToUInt64(v: Value) returns (r: Result<u64>)
    ensures r == UInt64Of(v)
  {
    if !v.Str? {
      return UInt64Of(v);
    }
    var str := v.s;
    var c := CString(str);
    var s := 0;
    while s < |str| && str[s] != '\0'
      invariant s <= SpaceRun(c)
      decreases |str| - s
    {
      if IsSpace(str[s]) {
        s := s + 1;
      } else {
        break;
      }
    }
    assert s == SpaceRun(c);
    var n := if s < |str| && str[s] != '\0' then 1 else 0;
    assert n == 0 <==> s == |c|;
    if n == 0 {
      return Err(Raised("invalid string, " + c + " has no characters"));
    }
    if str[s] == '-' {
      return Err(Raised("invalid string, " + c + " is negative"));
    }
    var conv := StrToULL(c[s..]);
    if conv.erange {
      return Err(Raised("invalid integer string"));
    }
    if conv.consumed == 0 {
      return Err(Raised("invalid string"));
    }
    return Ok(conv.value);
  }

  /** luaflac_toint64 (none and nil read as 0, booleans as 0 or 1, integers as they
      are, a FLAC__uint64 above INT64_MAX is out of range, anything else is an invalid
      value). A string goes through strtoull and is then cast: only an overflow of the
      unsigned range is refused, and a string without digits reads as 0. */
  function Int64Of(v: Value): (r: Result<i64>)
    ensures v.Nil? ==> r == Ok(0)
    ensures v.Boolean? ==> r == Ok(if v.b then 1 else 0)
    ensures v.Integer? ==> r == Ok(v.i)
    ensures v.Int64? ==> r == Ok(v.v)
    ensures v.UInt64? ==> (r.Ok? <==> v.u <= INT64_MAX) && (r.Ok? ==> r.value == v.u)
    ensures v.UInt64? && v.u > INT64_MAX ==> r == Err(Raised("out of range"))
    ensures v.Table? || v.Other? ==> r == Err(Raised("invalid value"))
  {
    match v
    case Nil => Ok(0)
    case Boolean(b) => Ok(if b then 1 else 0)
    case Integer(i) => Ok(i)
    case Int64(x) => Ok(x)
    case UInt64(u) => if u > INT64_MAX then Err(Raised("out of range")) else Ok(u)
    case Str(s) =>
      var conv := StrToULL(CString(s));
      if conv.erange then Err(Raised("invalid integer string")) else Ok(ToSigned(conv.value))
    case _ => Err(Raised("invalid value"))
  }

  /** The text __tostring gives a FLAC__uint64 converts back to the same value. */
  lemma UInt64TextRoundTrip(v: u64)
    ensures UInt64Of(Str(Decimal(v))) == Ok(v)
  {
    var s := Decimal(v);
    DecimalIsCText(v);
    DecimalValue(v);
    ReadsNumeral(s);
    ParseAccepts(s);
    assert ParseUInt64(s) == Ok(v);
  }

  /** The decimal text of a number is its own C view and starts with no whitespace. */
  lemma DecimalIsCText(v: nat)
    ensures CString(Decimal(v)) == Decimal(v) && SpaceRun(Decimal(v)) == 0
    ensures Decimal(v)[0..] == Decimal(v)
  {
    var s := Decimal(v);
    assert forall i :: 0 <= i < |s| ==> s[i] != '\0';
  }

  /** Numerals beyond UINT64_MAX are refused with strtoull's overflow, not wrapped. */
  lemma UInt64OverflowRefused(v: nat)
    requires v > UINT64_MAX
    ensures UInt64Of(Str(Decimal(v))) == Err(Raised("invalid integer string"))
  {
    var s := Decimal(v);
    DecimalIsCText(v);
    DecimalValue(v);
    ReadsNumeral(s);
    ParseAccepts(s);
  }

  /** A string that is empty or only whitespace before its terminator is refused, and the
      message quotes the text. */
  lemma UInt64BlankRefused(s: string)
    requires AllSpace(CString(s))
    ensures UInt64Of(Str(s)) == Err(Raised("invalid string, " + CString(s) + " has no characters"))
  {
  }

  /** A string whose first non-space character is neither a sign nor a digit converts
      nothing, and is refused. */
  lemma UInt64NoDigitRefused(s: string)
    requires SpaceRun(CString(s)) < |CString(s)|
    requires CString(s)[SpaceRun(CString(s))] !in "-+"
    requires !IsDigit(CString(s)[SpaceRun(CString(s))])
    ensures UInt64Of(Str(s)) == Err(Raised("invalid string"))
  {
  }

  /** A minus sign, even in front of zero, is refused, and the message quotes the text. */
  lemma UInt64NegativeRefused(v: nat)
    ensures UInt64Of(Str("-" + Decimal(v))) == Err(Raised("invalid string, -" + Decimal(v) + " is negative"))
  {
    var s := "-" + Decimal(v);
    assert CString(s) == s by {
      assert forall i :: 0 <= i < |s| ==> s[i] != '\0';
    }
    assert s[0] == '-' && !IsSpace(s[0]);
    assert SpaceRun(s) == 0;
    assert "invalid string, " + s + " is negative" == "invalid string, -" + Decimal(v) + " is negative";
  }

  /** Leading whitespace does not change whether a string converts, nor the value. */
  lemma UInt64LeadingSpace(w: string, s: string)
    requires AllSpace(w)
    ensures UInt64Of(Str(w + s)).Ok? <==> UInt64Of(Str(s)).Ok?
    ensures UInt64Of(Str(w + s)).Ok? ==> UInt64Of(Str(w + s)) == UInt64Of(Str(s))
  {
    ParseLeadingSpace(w, s);
  }

  lemma ParseLeadingSpace(w: string, s: string)
    requires AllSpace(w)
    ensures ParseUInt64(w + s).Ok? <==> ParseUInt64(s).Ok?
    ensures ParseUInt64(w + s).Ok? ==> ParseUInt64(w + s) == ParseUInt64(s)
  {
    var c := CString(s);
    var k := SpaceRun(c);
    var c' := CString(w + s);
    var k' := SpaceRun(c');
    assert c' == w + c && k' == |w| + k by {
      SpacedView(w, s);
    }
    ParseAccepts(s);
    ParseAccepts(w + s);
    if k < |c| {
      assert c'[k'] == c[k];
      assert c'[k'..] == c[k..];
      var conv := StrToULL(c[k..]);
      if ParseUInt64(s).Ok? {
        assert ParseUInt64(w + s).value == conv.value == ParseUInt64(s).value;
      }
    }
  }

  /** When ParseUInt64 accepts a string, in terms of the C view and its whitespace run. */
  lemma ParseAccepts(str: string)
    ensures var c := CString(str); var k := SpaceRun(c);
      ParseUInt64(str).Ok? <==>
        k < |c| && c[k] != '-' && !StrToULL(c[k..]).erange && StrToULL(c[k..]).consumed != 0
    ensures var c := CString(str); var k := SpaceRun(c);
      ParseUInt64(str).Ok? ==> k < |c| && ParseUInt64(str).value == StrToULL(c[k..]).value
  {
  }

  /** The C view of a string behind whitespace is that whitespace followed by the C view
      of the string, and its whitespace run is the two runs together. */
  lemma SpacedView(w: string, s: string)
    requires AllSpace(w)
    ensures CString(w + s) == w + CString(s)
    ensures SpaceRun(w + CString(s)) == |w| + SpaceRun(CString(s))
  {
    CStringSpacePrefix(w, s);
    SpaceRunPrefix(w, CString(s));
  }

  /** The text __tostring gives a FLAC__int64 converts back to the same value. */
  lemma Int64TextRoundTrip(i: i64)
    ensures Int64Of(Str(SignedDecimal(i))) == Ok(i)
  {
    if i < 0 {
      NegativeTextRoundTrip(i);
    } else {
      DecimalValue(i);
      Int64TextIsCast(i);
    }
  }

  lemma NegativeTextRoundTrip(i: i64)
    requires i < 0
    ensures Int64Of(Str(SignedDecimal(i))) == Ok(i)
  {
    var m: nat := -(i as int);
    var s := "-" + Decimal(m);
    SignedTextHasNoNul(m);
    NegatedDecimalParse(m);
    assert ToSigned(TWO_64 - m) == i;
    assert Int64Of(Str(s)) == Ok(i);
  }

  /** strtoull reads the text of a negative FLAC__int64 as its two's-complement bits. */
  lemma NegatedDecimalParse(m: nat)
    requires 0 < m <= TWO_63
    ensures StrToULL("-" + Decimal(m)) == Conversion(TWO_64 - m, |Decimal(m)| + 1, false)
  {
    DecimalValue(m);
    ReadsNegatedNumeral(Decimal(m));
  }

  /** The text of a negative number holds no NUL, so its C view is all of it. */
  lemma SignedTextHasNoNul(m: nat)
    ensures CString("-" + Decimal(m)) == "-" + Decimal(m)
  {
    var s := "-" + Decimal(m);
    assert forall j :: 0 <= j < |s| ==> s[j] != '\0';
  }

  /** The string path of luaflac_toint64 is an unsigned parse followed by a cast: a
      numeral above INT64_MAX silently comes back negative. */
  lemma Int64TextIsCast(v: u64)
    ensures Int64Of(Str(Decimal(v))) == Ok(ToSigned(v))
  {
    var s := Decimal(v);
    assert CString(s) == s by {
      assert forall j :: 0 <= j < |s| ==> s[j] != '\0';
    }
    DecimalValue(v);
    ReadsNumeral(s);
  }
}
