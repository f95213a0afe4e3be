/** The decimal formatters behind __tostring: digits are written backwards from the end
    of a fixed char buffer, and the caller receives the position of the first character
    and the length. A position is an index into the array; `base` is where the
    formatter's buffer starts inside it (the signed formatter hands the unsigned one its
    buffer shifted by one, keeping room for the sign). */
module Int64Text {
  import opened MachineInt
  import opened DecimalText

  /** luaflac_uint64_to_str: writes the shortest decimal form of value so that it ends
      just before a NUL at base + 20, and touches nothing else. */
  method UInt64ToStr(value: u64, buffer: array<char>, base: nat) returns (p: nat, len: nat)
    requires base + 21 <= buffer.Length
    modifies buffer
    ensures base <= p && p + len == base + 20
    ensures buffer[p..p + len] == Decimal(value)
    ensures buffer[base + 20] == '\0'
    ensures forall i :: 0 <= i < buffer.Length && !(p <= i <= base + 20) ==> buffer[i] == old(buffer[i])
  {
    p := base + 20;
    buffer[p] := '\0';
    var v: nat := value;
    p := p - 1;
    buffer[p] := DigitChar(v % 10);
    v := v / 10;
    ghost var n: nat := 1;
    assert buffer[p..base + 20] == LastDigits(value, 1);
    while v != 0
      invariant 1 <= n <= 20 && p == base + 20 - n
      invariant buffer[base + 20] == '\0'
      invariant v == Shift(value, n)
      invariant n == 1 || Shift(value, n - 1) != 0
      invariant buffer[p..base + 20] == LastDigits(value, n)
      invariant forall i :: 0 <= i < buffer.Length && !(p <= i <= base + 20) ==> buffer[i] == old(buffer[i])
      decreases v
    {
      UInt64ShiftBound(value, n);
      ShiftNext(value, n);
      LastDigitsNext(value, n);
      ghost var written := buffer[p..base + 20];
      p := p - 1;
      buffer[p] := DigitChar(v % 10);
      assert buffer[p..base + 20] == [DigitChar(v % 10)] + written;
      v := v / 10;
      n := n + 1;
    }
    LastDigitsAreDecimal(value, n);
    len := 20 - (p - base);
  }

  /** luaflac_int64_to_str: a negative value is written as '-' and the digits of its
      magnitude (for INT64_MIN the magnitude 2^63 comes from the wrap-around negation);
      any other value exactly as the unsigned formatter writes it. */
  method Int64ToStr(value: i64, buffer: array<char>, base: nat) returns (p: nat, len: nat)
    requires base + 22 <= buffer.Length
    modifies buffer
    ensures base <= p && p + len == base + 21
    ensures buffer[p..p + len] == SignedDecimal(value)
    ensures buffer[base + 21] == '\0'
    ensures forall i :: 0 <= i < buffer.Length && !(p <= i <= base + 21) ==> buffer[i] == old(buffer[i])
  {
    var sign := value < 0;
    var tmp: u64 := Wrap64(if sign then -(value as int) else value);
    p, len := UInt64ToStr(tmp, buffer, base + 1);
    if sign {
      ghost var digits := buffer[p..p + len];
      p := p - 1;
      buffer[p] := '-';
      len := len + 1;
      assert buffer[p..p + len] == ['-'] + digits;
    }
  }

  /** __tostring of a FLAC__uint64: the characters the formatter leaves in a 21-byte
      buffer, pushed as a Lua string. */
  method UInt64ToString(value: u64) returns (s: string)
    ensures s == Decimal(value)
    ensures 1 <= |s| <= 20
  {
    var t := new char[21];
    var p, l := UInt64ToStr(value, t, 0);
    s := t[p..p + l];
    UInt64DecimalLength(value);
  }

  /** __tostring of a FLAC__int64, from a 22-byte buffer. */
  method Int64ToString(value: i64) returns (s: string)
    ensures s == SignedDecimal(value)
    ensures 1 <= |s| <= 20
  {
    var t := new char[22];
    var p, l := Int64ToStr(value, t, 0);
    s := t[p..p + l];
    PowerTen19();
    DecimalLength(if value < 0 then -(value as int) else value, 19);
  }
}
