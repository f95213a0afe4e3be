/** The Lua values the binding reads and builds, and the few Lua C API calls it uses
    on them, with Lua 5.3 semantics. A table is a record of named fields plus its array
    part (the values at keys 1..n, where n is what lua_rawlen reports). */
module Lua {
  import opened MachineInt
  import opened DecimalText

  datatype Value =
    | Nil
    | Boolean(b: bool)
    | Integer(i: i64)
    | Str(s: string)
    | Table(fields: map<string, Value>, items: seq<Value>)
      /** full userdata carrying the FLAC__uint64 metatable */
    | UInt64(u: u64)
      /** full userdata carrying the FLAC__int64 metatable */
    | Int64(v: i64)
      /** functions, threads, light userdata and userdata of any other metatable */
    | Other

  datatype Failure =
      /** lua_error / luaL_error with this message (the binding's own messages are
          reproduced verbatim; those raised inside the Lua library are summarised) */
    | Raised(message: string)
      /** a point where C or the Lua API leaves the behaviour undefined */
    | Undefined(what: string)

  datatype Result<T> = Ok(value: T) | Err(failure: Failure) {
    predicate IsFailure() {
      Err?
    }

    function PropagateFailure<U>(): Result<U>
      requires Err?
    {
      Err(failure)
    }

    function Extract(): T
      requires Ok?
    {
      value
    }
  }

  /** The names the string library gives to every string through its metatable. */
  const STRING_LIBRARY: set<string> :=
    {"byte", "char", "dump", "find", "format", "gmatch", "gsub", "len", "lower",
     "match", "rep", "reverse", "sub", "upper", "pack", "packsize", "unpack"}

  /** lua_getfield(L, idx, key) on the value v (no metamethods other than the string
      metatable's __index are involved for the values modelled here). */
  function GetField(v: Value, key: string): (r: Result<Value>)
    ensures v.Table? ==> r == Ok(if key in v.fields then v.fields[key] else Nil)
    ensures r.Ok? <==> v.Table? || v.Str?
  {
    match v
    case Table(fields, _) => Ok(if key in fields then fields[key] else Nil)
    case Str(_) => Ok(if key in STRING_LIBRARY then Other else Nil)
    case _ => Err(Raised("attempt to index a non-table value"))
  }

  /** lua_toboolean: only nil and false are false. */
  function ToBoolean(v: Value): bool {
    !(v.Nil? || v == Boolean(false))
  }

  /** lua_tointeger: the integer itself, 0 for every non-number. */
  function ToInteger(v: Value): i64 {
    if v.Integer? then v.i else 0
  }

  /** luaL_checkinteger: the integer, or an argument error. */
  function CheckInteger(v: Value): Result<i64> {
    if v.Integer? then Ok(v.i) else Err(Raised("bad argument (number expected)"))
  }

  /** lua_tolstring: strings as they are, integers in their "%lld" decimal form,
      nothing (NULL) for every other value. */
  function ToLString(v: Value): Result<string> {
    match v
    case Str(s) => Ok(s)
    case Integer(i) => Ok(SignedDecimal(i))
    case _ => Err(Raised("not a string"))
  }

  /** luaL_checklstring: lua_tolstring, or an argument error. */
  function CheckLString(v: Value): Result<string> {
    if v.Str? || v.Integer? then ToLString(v) else Err(Raised("bad argument (string expected)"))
  }

  /** lua_rawlen: the array length of a table, the byte length of a string, the size of
      a full userdata's block, 0 otherwise. */
  function RawLen(v: Value): nat {
    match v
    case Table(_, items) => |items|
    case Str(s) => |s|
    case UInt64(_) => 8
    case Int64(_) => 8
    case _ => 0
  }

  /** lua_rawgeti(L, idx, k): element k (1-based) of the array part. The API requires a
      table; on any other value the call is undefined. */
  function RawGetI(v: Value, k: int): (r: Result<Value>)
    ensures v.Table? && 1 <= k <= |v.items| ==> r == Ok(v.items[k - 1])
    ensures !v.Table? ==> r.Err? && r.failure.Undefined?
  {
    if !v.Table? then Err(Undefined("lua_rawgeti on a non-table"))
    else if 1 <= k <= |v.items| then Ok(v.items[k - 1])
    else Ok(Nil)
  }

  /** lua_getfield on a value already known to be a table. */
  function Field(t: Value, key: string): (r: Value)
    requires t.Table?
    ensures GetField(t, key) == Ok(r)
  {
    if key in t.fields then t.fields[key] else Nil
  }

  /** The values lua_rawgeti(L, -1, 1) .. lua_rawgeti(L, -1, count) fetch in turn, where
      count is at most what lua_rawlen reported: on a non-table the first fetch is
      already undefined, unless there is none. */
  function Elements(v: Value, count: nat): (r: Result<seq<Value>>)
    requires count <= RawLen(v)
    ensures r.Ok? ==> |r.value| == count
    ensures r.Ok? ==> forall k :: 1 <= k <= count ==> RawGetI(v, k) == Ok(r.value[k - 1])
    ensures r.Err? <==> count > 0 && !v.Table?
    ensures r.Err? ==> RawGetI(v, 1) == Err(r.failure)
  {
    if count == 0 then Ok([])
    else if v.Table? then Ok(v.items[..count])
    else Err(Undefined("lua_rawgeti on a non-table"))
  }

  /** Converting xs[i..] element by element, stopping at the first failure. */
  function MapFrom<A, B>(f: A -> Result<B>, xs: seq<A>, i: nat): (r: Result<seq<B>>)
    requires i <= |xs|
    ensures r.Ok? ==> |r.value| == |xs| - i
    decreases |xs| - i
  {
    if i == |xs| then Ok([])
    else
      var b :- f(xs[i]);
      var rest :- MapFrom(f, xs, i + 1);
      Ok([b] + rest)
  }

  /** A converted prefix in front of the conversion of the rest (a failure of the rest
      stays a failure). */
  function Prepend<B>(done: seq<B>, r: Result<seq<B>>): (q: Result<seq<B>>)
    ensures q.Ok? <==> r.Ok?
    ensures r.Ok? ==> q.value == done + r.value
    ensures r.Err? ==> q == r
  {
    if r.Err? then r else Ok(done + r.value)
  }

  /** The state of an element-by-element conversion loop that writes into a buffer:
      the first i slots of the buffer hold the conversions of xs[..i]. */
  ghost predicate Filled<A, B>(f: A -> Result<B>, xs: seq<A>, buffer: seq<B>, i: nat) {
    i <= |xs| && i <= |buffer| &&
    MapFrom(f, xs, 0) == Prepend(buffer[..i], MapFrom(f, xs, i))
  }

  /** Nothing converted yet. */
  lemma FillStart<A, B>(f: A -> Result<B>, xs: seq<A>, buffer: seq<B>)
    ensures Filled(f, xs, buffer, 0)
  {
    var r := MapFrom(f, xs, 0);
    if r.Ok? {
      assert [] + r.value == r.value;
    }
  }

  /** One step: after xs[i] converts to b and b is stored in slot i, one more slot is
      filled. */
  lemma FillStep<A, B>(f: A -> Result<B>, xs: seq<A>, buffer: seq<B>, i: nat, b: B)
    requires Filled(f, xs, buffer, i) && i < |xs| && i < |buffer| && f(xs[i]) == Ok(b)
    ensures Filled(f, xs, buffer[i := b], i + 1)
  {
    var done := buffer[..i];
    var rest := MapFrom(f, xs, i + 1);
    if rest.Ok? {
      assert done + ([b] + rest.value) == (done + [b]) + rest.value;
    }
    assert buffer[i := b][..i + 1] == done + [b];
  }

  /** The loop stops at an element that does not convert, with its failure. */
  lemma FillStops<A, B>(f: A -> Result<B>, xs: seq<A>, buffer: seq<B>, i: nat)
    requires Filled(f, xs, buffer, i) && i < |xs| && f(xs[i]).Err?
    ensures MapFrom(f, xs, 0) == Err(f(xs[i]).failure)
  {
  }

  /** Once every element is converted, the buffer is the whole result. */
  lemma FillDone<A, B>(f: A -> Result<B>, xs: seq<A>, buffer: seq<B>)
    requires Filled(f, xs, buffer, |xs|) && |buffer| == |xs|
    ensures MapFrom(f, xs, 0) == Ok(buffer)
  {
    assert buffer[..|xs|] + [] == buffer;
  }

  /** A successful conversion keeps the order and the count: result k comes from xs[k]. */
  lemma {:induction false} MapFromOrder<A, B>(f: A -> Result<B>, xs: seq<A>, i: nat)
    requires i <= |xs| && MapFrom(f, xs, i).Ok?
    ensures forall k :: i <= k < |xs| ==> f(xs[k]) == Ok(MapFrom(f, xs, i).value[k - i])
    decreases |xs| - i
  {
    if i < |xs| {
      MapFromOrder(f, xs, i + 1);
    }
  }

  /** The conversion succeeds exactly when every element converts. */
  lemma {:induction false} MapFromTotal<A, B>(f: A -> Result<B>, xs: seq<A>, i: nat)
    requires i <= |xs|
    ensures MapFrom(f, xs, i).Ok? <==> forall k :: i <= k < |xs| ==> f(xs[k]).Ok?
    decreases |xs| - i
  {
    if i < |xs| {
      MapFromTotal(f, xs, i + 1);
    }
  }

  /** The conversion fails with the failure of the first element that does not convert. */
  lemma {:induction false} MapFromFirstFailure<A, B>(f: A -> Result<B>, xs: seq<A>, i: nat, k: nat)
    requires i <= k < |xs|
    requires forall j :: i <= j < k ==> f(xs[j]).Ok?
    requires f(xs[k]).Err?
    ensures MapFrom(f, xs, i) == Err(f(xs[k]).failure)
    decreases k - i
  {
    if i < k {
      MapFromFirstFailure(f, xs, i + 1, k);
    }
  }

  /** Elements that each convert to their counterpart convert, as a list, to the list of
      counterparts. */
  lemma {:induction false} MapFromAll<A, B>(f: A -> Result<B>, xs: seq<A>, ys: seq<B>, i: nat)
    requires i <= |xs| == |ys|
    requires forall k :: i <= k < |xs| ==> f(xs[k]) == Ok(ys[k])
    ensures MapFrom(f, xs, i) == Ok(ys[i..])
    decreases |xs| - i
  {
    if i < |xs| {
      MapFromAll(f, xs, ys, i + 1);
      assert ys[i..] == [ys[i]] + ys[i + 1..];
    }
  }
}
