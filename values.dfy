/** Runtime values of the interpreter (the `result` package): a value is either
    a null that still carries a runtime type, or a present payload. The
    coercions fail with an error when the payload is not of the requested kind. */
module Values {
  import Types

  /** Go's int32 and int64. */
  type int32 = x: int | -0x8000_0000 <= x < 0x8000_0000
  type int64 = x: int | -0x8000_0000_0000_0000 <= x < 0x8000_0000_0000_0000

  /** The int32 that Go's two's complement arithmetic yields for the
      mathematical integer `x`: `x` reduced modulo 2^32 into the signed range. */
  function Wrap32(x: int): (r: int32)
    ensures (x - r) % 0x1_0000_0000 == 0
    ensures -0x8000_0000 <= x < 0x8000_0000 ==> r == x
  {
    (x + 0x8000_0000) % 0x1_0000_0000 - 0x8000_0000
  }

  /** The int64 that Go's two's complement arithmetic yields for `x`. */
  function Wrap64(x: int): (r: int64)
    ensures (x - r) % 0x1_0000_0000_0000_0000 == 0
    ensures -0x8000_0000_0000_0000 <= x < 0x8000_0000_0000_0000 ==> r == x
  {
    (x + 0x8000_0000_0000_0000) % 0x1_0000_0000_0000_0000 - 0x8000_0000_0000_0000
  }

  /** Adding to an already wrapped int32 wraps like adding to the exact sum:
      the running `sum += v` of Go agrees with wrapping the true total once. */
  lemma Wrap32Add(a: int, b: int)
    ensures Wrap32(Wrap32(a) + b) == Wrap32(a + b)
  {
    var x := a + 0x8000_0000;
    var k := x / 0x1_0000_0000;
    var z := x + b - k * 0x1_0000_0000;
    assert Wrap32(a) + b + 0x8000_0000 == z;
    assert z % 0x1_0000_0000 == (x + b) % 0x1_0000_0000;
  }

  lemma Wrap64Add(a: int, b: int)
    ensures Wrap64(Wrap64(a) + b) == Wrap64(a + b)
  {
    var x := a + 0x8000_0000_0000_0000;
    var k := x / 0x1_0000_0000_0000_0000;
    var z := x + b - k * 0x1_0000_0000_0000_0000;
    assert Wrap64(a) + b + 0x8000_0000_0000_0000 == z;
    assert z % 0x1_0000_0000_0000_0000 == (x + b) % 0x1_0000_0000_0000_0000;
  }

  /** A magnitude with a unit label; the magnitude is a float64 in Go. */
  datatype Quantity = Quantity(value: real, unit: string)

  datatype Value =
    | Null(runtimeType: Types.IType)
    | Bool(b: bool)
    | Int(i: int32)
    | Long(l: int64)
    | Dec(d: real)
    | Qty(q: Quantity)
    | Str(s: string)
    | List(elementType: Types.IType, elems: seq<Value>)

  /** The kinds a coercion can ask for. */
  datatype Kind = SliceKind | BoolKind | Int32Kind | Int64Kind | Float64Kind | QuantityKind

  datatype Error =
    | CannotConvert(want: Kind, found: Types.IType)
    | NotNumericList(op: string, elementType: Types.IType)
    | UnitMismatch(op: string, first: string, second: string)

  datatype Result<T> = Ok(value: T) | Err(error: Error)

  datatype Option<T> = None | Some(value: T)

  predicate IsNull(v: Value) {
    v.Null?
  }

  function RuntimeType(v: Value): (t: Types.IType)
    ensures !v.Null? ==> (v.List? <==> t.List?)
    ensures v.List? ==> t == Types.List(v.elementType)
  {
    match v
    case Null(t) => t
    case Bool(_) => Types.Boolean
    case Int(_) => Types.Integer
    case Long(_) => Types.Long
    case Dec(_) => Types.Decimal
    case Qty(_) => Types.Quantity
    case Str(_) => Types.String
    case List(et, _) => Types.List(et)
  }

  function ToSlice(v: Value): (r: Result<seq<Value>>)
    ensures r.Ok? <==> v.List?
    ensures r.Ok? ==> r.value == v.elems
    ensures r.Err? ==> r.error == CannotConvert(SliceKind, RuntimeType(v))
  {
    if v.List? then Ok(v.elems) else Err(CannotConvert(SliceKind, RuntimeType(v)))
  }

  function ToBool(v: Value): (r: Result<bool>)
    ensures r.Ok? <==> v.Bool?
    ensures r.Ok? ==> v == Bool(r.value)
    ensures r.Err? ==> r.error == CannotConvert(BoolKind, RuntimeType(v))
  {
    if v.Bool? then Ok(v.b) else Err(CannotConvert(BoolKind, RuntimeType(v)))
  }

  function ToInt32(v: Value): (r: Result<int32>)
    ensures r.Ok? <==> v.Int?
    ensures r.Ok? ==> v == Int(r.value)
    ensures r.Err? ==> r.error == CannotConvert(Int32Kind, RuntimeType(v))
  {
    if v.Int? then Ok(v.i) else Err(CannotConvert(Int32Kind, RuntimeType(v)))
  }

  function ToInt64(v: Value): (r: Result<int64>)
    ensures r.Ok? <==> v.Long?
    ensures r.Ok? ==> v == Long(r.value)
    ensures r.Err? ==> r.error == CannotConvert(Int64Kind, RuntimeType(v))
  {
    if v.Long? then Ok(v.l) else Err(CannotConvert(Int64Kind, RuntimeType(v)))
  }

  function ToFloat64(v: Value): (r: Result<real>)
    ensures r.Ok? <==> v.Dec?
    ensures r.Ok? ==> v == Dec(r.value)
    ensures r.Err? ==> r.error == CannotConvert(Float64Kind, RuntimeType(v))
  {
    if v.Dec? then Ok(v.d) else Err(CannotConvert(Float64Kind, RuntimeType(v)))
  }

  function ToQuantity(v: Value): (r: Result<Quantity>)
    ensures r.Ok? <==> v.Qty?
    ensures r.Ok? ==> v == Qty(r.value)
    ensures r.Err? ==> r.error == CannotConvert(QuantityKind, RuntimeType(v))
  {
    if v.Qty? then Ok(v.q) else Err(CannotConvert(QuantityKind, RuntimeType(v)))
  }

}
