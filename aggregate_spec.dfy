/** The meaning of the aggregate operators AllTrue, AnyTrue, Count and Sum of
    CQL (the "Aggregate Functions" section of the CQL Reference, Appendix B),
    as the interpreter implements them, written as functions of the operand. */
module AggregateSpec {
  import Types
  import opened Values
  import opened Elements

  /** An element that the AllTrue/AnyTrue scan steps over: a null, or the
      Boolean that does not decide the result. */
  predicate Passes(v: Value, decisive: bool) {
    v.Null? || v == Bool(!decisive)
  }

  /** The scan shared by AllTrue (decisive = false) and AnyTrue
      (decisive = true): nulls are skipped, the first non-null element that is
      not a Boolean is an error, the first `decisive` Boolean is the answer,
      and a list without one yields `!decisive`. */
  function ReduceBool(s: seq<Value>, decisive: bool): Result<bool>
  {
    if s == [] then Ok(!decisive)
    else if s[0].Null? then ReduceBool(s[1..], decisive)
    else match ToBool(s[0])
      case Err(e) => Err(e)
      case Ok(b) => if b == decisive then Ok(decisive) else ReduceBool(s[1..], decisive)
  }

  function BoolResult(r: Result<bool>): Result<Value>
  {
    match r
    case Err(e) => Err(e)
    case Ok(b) => Ok(Bool(b))
  }

  /** AllTrue(argument List<Boolean>) Boolean */
  function AllTrue(operand: Value): Result<Value>
  {
    match operand
    case Null(_) => Ok(Bool(true))
    case List(_, elems) => BoolResult(ReduceBool(elems, false))
    case _ => Err(CannotConvert(SliceKind, RuntimeType(operand)))
  }

  /** AnyTrue(argument List<Boolean>) Boolean */
  function AnyTrue(operand: Value): Result<Value>
  {
    match operand
    case Null(_) => Ok(Bool(false))
    case List(_, elems) => BoolResult(ReduceBool(elems, true))
    case _ => Err(CannotConvert(SliceKind, RuntimeType(operand)))
  }

  /** Count(argument List<T>) Integer: the number of non-null elements,
      stored as a CQL Integer (a Go int converted to int32). */
  function Count(operand: Value): Result<Value>
  {
    match operand
    case Null(_) => Ok(Int(0))
    case List(_, elems) => Ok(Int(Wrap32(|NonNulls(elems)|)))
    case _ => Err(CannotConvert(SliceKind, RuntimeType(operand)))
  }

  /** Sum over a List<Integer>: null when no element is present, otherwise
      the exact total of the elements reduced into the int32 range. */
  function SumIntegers(s: seq<Value>): Result<Value>
  {
    match FirstError(s, ToInt32)
    case Some(e) => Err(e)
    case None =>
      if NonNulls(s) == [] then Ok(Null(Types.Any)) else Ok(Int(Wrap32(IntegerTotal(s))))
  }

  /** Sum over a List<Long>: as for Integer, in the int64 range. */
  function SumLongs(s: seq<Value>): Result<Value>
  {
    match FirstError(s, ToInt64)
    case Some(e) => Err(e)
    case None =>
      if NonNulls(s) == [] then Ok(Null(Types.Any)) else Ok(Long(Wrap64(LongTotal(s))))
  }

  /** Sum over a List<Decimal>: null when no element is present, otherwise the total. */
  function SumDecimals(s: seq<Value>): Result<Value>
  {
    match FirstError(s, ToFloat64)
    case Some(e) => Err(e)
    case None =>
      if NonNulls(s) == [] then Ok(Null(Types.Any)) else Ok(Dec(DecimalTotal(s)))
  }

  /** How a Quantity sum whose unit is already `unit` takes one more element:
      it must be a Quantity, and of that unit. */
  function CoerceInUnit(name: string, unit: string, v: Value): (r: Result<real>)
    ensures r.Ok? <==> v.Qty? && v.q.unit == unit
    ensures r.Ok? ==> r.value == v.q.value
    ensures !v.Qty? ==> r == Err(CannotConvert(QuantityKind, RuntimeType(v)))
    ensures v.Qty? && v.q.unit != unit ==> r == Err(UnitMismatch(name, unit, v.q.unit))
  {
    match ToQuantity(v)
    case Err(e) => Err(e)
    case Ok(q) => if q.unit != unit then Err(UnitMismatch(name, unit, q.unit)) else Ok(q.value)
  }

  /** `CoerceInUnit` as the element coercion of a Quantity sum. */
  function InUnit(name: string, unit: string): Value -> Result<real>
  {
    v => CoerceInUnit(name, unit, v)
  }

  /** Sum over a List<Quantity>: null when no element is present; otherwise
      the first present element fixes the unit, every present element must
      be a Quantity of that unit, and the magnitudes are added. */
  function SumQuantities(name: string, s: seq<Value>): Result<Value>
  {
    var present := NonNulls(s);
    if present == [] then Ok(Null(Types.Any))
    else match ToQuantity(present[0])
      case Err(e) => Err(e)
      case Ok(first) =>
        match FirstError(s, InUnit(name, first.unit))
        case Some(e) => Err(e)
        case None => Ok(Qty(Quantity(QuantityTotal(s), first.unit)))
  }

  /** Sum(argument List<Decimal|Integer|Long|Quantity>): dispatches on the
      declared element type of the list, not on its elements. A List<Any>
      holds only nulls, so its sum is null without looking at it. */
  function Sum(name: string, operand: Value): Result<Value>
  {
    match operand
    case Null(_) => Ok(Null(Types.Any))
    case List(et, elems) =>
      (match et
       case Any => Ok(Null(Types.Any))
       case Decimal => SumDecimals(elems)
       case Integer => SumIntegers(elems)
       case Long => SumLongs(elems)
       case Quantity => SumQuantities(name, elems)
       case _ => Err(NotNumericList(name, et)))
    case _ => Err(CannotConvert(SliceKind, RuntimeType(operand)))
  }

}
