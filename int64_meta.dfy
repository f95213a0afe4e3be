/** The metamethods as Lua sees them: both operands go through the conversion of the
    metatable's type (the first operand first, so its error wins), the word operation is
    applied, and the result is pushed as a new userdata of the same type. Division and
    remainder by zero, INT64_MIN / -1 and shifts outside 0..63 are undefined in C and
    become Undefined failures here. */
module Int64Meta {
  import opened MachineInt
  import opened Lua
  import opened Int64Convert
  import U = UInt64Arith
  import S = Int64Arith

  datatype Binary = Add | Sub | Mul | Div | Mod | Pow | BAnd | BOr | BXor | Shl | Shr

  /** The FLAC__uint64 word operation, with the C-undefined cases marked. */
  function UInt64Op(op: Binary, a: u64, b: u64): Result<u64> {
    match op
    case Add => Ok(U.Add(a, b))
    case Sub => Ok(U.Sub(a, b))
    case Mul => Ok(U.Mul(a, b))
    case Div => if b == 0 then Err(Undefined("division by zero")) else Ok(U.Div(a, b))
    case Mod => if b == 0 then Err(Undefined("division by zero")) else Ok(U.Mod(a, b))
    case Pow => Ok(Power(a, b) % TWO_64)
    case BAnd => Ok(U.BAnd(a, b))
    case BOr => Ok(U.BOr(a, b))
    case BXor => Ok(U.BXor(a, b))
    case Shl => if b >= 64 then Err(Undefined("shift by 64 or more")) else Ok(U.Shl(a, b))
    case Shr => if b >= 64 then Err(Undefined("shift by 64 or more")) else Ok(U.Shr(a, b))
  }

  /** A luaflac_uint64__<op> metamethod on its two Lua operands. */
  function UInt64Event(op: Binary, x: Value, y: Value): Result<Value> {
    var a :- UInt64Of(x);
    var b :- UInt64Of(y);
    var r :- UInt64Op(op, a, b);
    Ok(UInt64(r))
  }

  lemma UInt64EventSteps(op: Binary, x: Value, y: Value)
    requires UInt64Of(x).Ok? && UInt64Of(y).Ok?
    ensures var w := UInt64Op(op, UInt64Of(x).value, UInt64Of(y).value);
      UInt64Event(op, x, y) == if w.Err? then Err(w.failure) else Ok(UInt64(w.value))
  {
  }

  /** The metamethod as the C code runs it: the conversions with their whitespace loop,
      and __pow with its squaring loop. */
  method UInt64Metamethod(op: Binary, x: Value, y: Value) returns (r: Result<Value>)
    ensures r == UInt64Event(op, x, y)
  {
    var a := ToUInt64(x);
    if a.Err? {
      return Err(a.failure);
    }
    var b := ToUInt64(y);
    if b.Err? {
      return Err(b.failure);
    }
    var w: Result<u64>;
    if op == Pow {
      var p := U.Pow(a.value, b.value);
      w := Ok(p);
    } else {
      w := UInt64Op(op, a.value, b.value);
    }
    UInt64EventSteps(op, x, y);
    r := if w.Err? then Err(w.failure) else Ok(UInt64(w.value));
  }

  /** The FLAC__int64 word operation, with the C-undefined cases marked. */
  function Int64Op(op: Binary, a: i64, b: i64): Result<i64> {
    match op
    case Add => Ok(S.Add(a, b))
    case Sub => Ok(S.Sub(a, b))
    case Mul => Ok(S.Mul(a, b))
    case Div =>
      if b == 0 then Err(Undefined("division by zero"))
      else if a == INT64_MIN && b == -1 then Err(Undefined("quotient overflow"))
      else Ok(S.Div(a, b))
    case Mod =>
      if b == 0 then Err(Undefined("division by zero"))
      else if a == INT64_MIN && b == -1 then Err(Undefined("quotient overflow"))
      else Ok(S.Mod(a, b))
    case Pow =>
      if b < 0 then Err(Raised("exp must be positive")) else Ok(WrapS64(Power(a, b)))
    case BAnd => Ok(S.BAnd(a, b))
    case BOr => Ok(S.BOr(a, b))
    case BXor => Ok(S.BXor(a, b))
    case Shl => if b < 0 || b >= 64 then Err(Undefined("shift outside 0..63")) else Ok(S.Shl(a, b))
    case Shr => if b < 0 || b >= 64 then Err(Undefined("shift outside 0..63")) else Ok(S.Shr(a, b))
  }

  /** A luaflac_int64__<op> metamethod on its two Lua operands. */
  function Int64Event(op: Binary, x: Value, y: Value): Result<Value> {
    var a :- Int64Of(x);
    var b :- Int64Of(y);
    var r :- Int64Op(op, a, b);
    Ok(Int64(r))
  }

  lemma Int64EventSteps(op: Binary, x: Value, y: Value)
    requires Int64Of(x).Ok? && Int64Of(y).Ok?
    ensures var w := Int64Op(op, Int64Of(x).value, Int64Of(y).value);
      Int64Event(op, x, y) == if w.Err? then Err(w.failure) else Ok(Int64(w.value))
  {
  }

  method Int64Metamethod(op: Binary, x: Value, y: Value) returns (r: Result<Value>)
    ensures r == Int64Event(op, x, y)
  {
    var a := Int64Of(x);
    if a.Err? {
      return Err(a.failure);
    }
    var b := Int64Of(y);
    if b.Err? {
      return Err(b.failure);
    }
    var w: Result<i64>;
    if op == Pow {
      w := S.Pow(a.value, b.value);
    } else {
      w := Int64Op(op, a.value, b.value);
    }
    Int64EventSteps(op, x, y);
    r := if w.Err? then Err(w.failure) else Ok(Int64(w.value));
  }

  /** __eq, __lt and __le of FLAC__uint64: both operands converted, then compared. */
  function UInt64Eq(x: Value, y: Value): (r: Result<bool>)
    ensures UInt64Of(x).Err? ==> r == Err(UInt64Of(x).failure)
    ensures UInt64Of(x).Ok? && UInt64Of(y).Err? ==> r == Err(UInt64Of(y).failure)
    ensures r.Ok? ==> r.value == (UInt64Of(x).value == UInt64Of(y).value)
  {
    var a :- UInt64Of(x);
    var b :- UInt64Of(y);
    Ok(a == b)
  }

  function UInt64Lt(x: Value, y: Value): (r: Result<bool>)
    ensures UInt64Of(x).Err? ==> r == Err(UInt64Of(x).failure)
    ensures UInt64Of(x).Ok? && UInt64Of(y).Err? ==> r == Err(UInt64Of(y).failure)
    ensures r.Ok? ==> r.value == (UInt64Of(x).value < UInt64Of(y).value)
  {
    var a :- UInt64Of(x);
    var b :- UInt64Of(y);
    Ok(a < b)
  }

  function UInt64Le(x: Value, y: Value): (r: Result<bool>)
    ensures UInt64Of(x).Err? ==> r == Err(UInt64Of(x).failure)
    ensures UInt64Of(x).Ok? && UInt64Of(y).Err? ==> r == Err(UInt64Of(y).failure)
    ensures r.Ok? ==> r.value == (UInt64Of(x).value <= UInt64Of(y).value)
  {
    var a :- UInt64Of(x);
    var b :- UInt64Of(y);
    Ok(a <= b)
  }

  /** __eq, __lt and __le of FLAC__int64. */
  function Int64Eq(x: Value, y: Value): (r: Result<bool>)
    ensures Int64Of(x).Err? ==> r == Err(Int64Of(x).failure)
    ensures Int64Of(x).Ok? && Int64Of(y).Err? ==> r == Err(Int64Of(y).failure)
    ensures r.Ok? ==> r.value == (Int64Of(x).value == Int64Of(y).value)
  {
    var a :- Int64Of(x);
    var b :- Int64Of(y);
    Ok(a == b)
  }

  function Int64Lt(x: Value, y: Value): (r: Result<bool>)
    ensures Int64Of(x).Err? ==> r == Err(Int64Of(x).failure)
    ensures Int64Of(x).Ok? && Int64Of(y).Err? ==> r == Err(Int64Of(y).failure)
    ensures r.Ok? ==> r.value == (Int64Of(x).value < Int64Of(y).value)
  {
    var a :- Int64Of(x);
    var b :- Int64Of(y);
    Ok(a < b)
  }

  function Int64Le(x: Value, y: Value): (r: Result<bool>)
    ensures Int64Of(x).Err? ==> r == Err(Int64Of(x).failure)
    ensures Int64Of(x).Ok? && Int64Of(y).Err? ==> r == Err(Int64Of(y).failure)
    ensures r.Ok? ==> r.value == (Int64Of(x).value <= Int64Of(y).value)
  {
    var a :- Int64Of(x);
    var b :- Int64Of(y);
    Ok(a <= b)
  }

  /** The three comparisons of FLAC__uint64 agree: they fail together, and "at most" is
      "less than or equal"; "less than" is asymmetric. */
  lemma UInt64ComparisonsAgree(x: Value, y: Value)
    ensures UInt64Lt(x, y).Ok? <==> UInt64Eq(x, y).Ok?
    ensures UInt64Le(x, y).Ok? <==> UInt64Eq(x, y).Ok?
    ensures UInt64Le(x, y).Ok? ==> UInt64Le(x, y).value == (UInt64Lt(x, y).value || UInt64Eq(x, y).value)
    ensures UInt64Lt(x, y).Ok? && UInt64Lt(y, x).Ok? ==> !(UInt64Lt(x, y).value && UInt64Lt(y, x).value)
  {
  }

  /** The same for the three comparisons of FLAC__int64. */
  lemma Int64ComparisonsAgree(x: Value, y: Value)
    ensures Int64Lt(x, y).Ok? <==> Int64Eq(x, y).Ok?
    ensures Int64Le(x, y).Ok? <==> Int64Eq(x, y).Ok?
    ensures Int64Le(x, y).Ok? ==> Int64Le(x, y).value == (Int64Lt(x, y).value || Int64Eq(x, y).value)
    ensures Int64Lt(x, y).Ok? && Int64Lt(y, x).Ok? ==> !(Int64Lt(x, y).value && Int64Lt(y, x).value)
  {
  }

  /** The __lt and __eq metamethods of FLAC__uint64, called on a uint64 and the Lua
      integer -1, read -1 as its 64-bit pattern 2^64 - 1: every value but UINT64_MAX
      compares below it. (The `==` operator itself never reaches __eq when one operand
      is a number; the `<` and `<=` operators do reach __lt and __le.) */
  lemma NegativeIntegerOperandWraps(a: u64)
    ensures UInt64Lt(UInt64(a), Integer(-1)) == Ok(a < UINT64_MAX)
    ensures UInt64Eq(UInt64(a), Integer(-1)) == Ok(a == UINT64_MAX)
  {
  }

  /** A FLAC__uint64 operand above INT64_MAX makes every FLAC__int64 metamethod fail,
      and a negative FLAC__int64 operand every FLAC__uint64 one. */
  lemma CrossTypeRange(op: Binary, a: i64, u: u64)
    ensures u > INT64_MAX ==> Int64Event(op, Int64(a), UInt64(u)) == Err(Raised("out of range"))
    ensures a < 0 ==> UInt64Event(op, UInt64(u), Int64(a)) == Err(Raised("out of range"))
  {
  }

  /** luaflac_uint64 / luaflac_int64 (the constructors): with no argument the value is
      0, otherwise the first argument converted. */
  function NewUInt64(args: seq<Value>): (r: Result<Value>)
    ensures args == [] ==> r == Ok(UInt64(0))
    ensures args != [] && UInt64Of(args[0]).Ok? ==> r == Ok(UInt64(UInt64Of(args[0]).value))
    ensures args != [] && UInt64Of(args[0]).Err? ==> r == Err(UInt64Of(args[0]).failure)
  {
    if |args| > 0 then
      var u :- UInt64Of(args[0]);
      Ok(UInt64(u))
    else Ok(UInt64(0))
  }

  function NewInt64(args: seq<Value>): (r: Result<Value>)
    ensures args == [] ==> r == Ok(Int64(0))
    ensures args != [] && Int64Of(args[0]).Ok? ==> r == Ok(Int64(Int64Of(args[0]).value))
    ensures args != [] && Int64Of(args[0]).Err? ==> r == Err(Int64Of(args[0]).failure)
  {
    if |args| > 0 then
      var i :- Int64Of(args[0]);
      Ok(Int64(i))
    else Ok(Int64(0))
  }

  /** A value rebuilt from its own __tostring text is the same value. */
  lemma ConstructorsReadTostring(u: u64, i: i64)
    ensures NewUInt64([Str(DecimalText.Decimal(u))]) == Ok(UInt64(u))
    ensures NewInt64([Str(DecimalText.SignedDecimal(i))]) == Ok(Int64(i))
  {
    UInt64TextRoundTrip(u);
    Int64TextRoundTrip(i);
  }
}
