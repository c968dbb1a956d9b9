/** The interpreter's evaluation of the aggregate operators: each takes the
    already evaluated operand and walks its elements in a loop, as the
    interpreter does, and is proved to compute the function of the same name
    in AggregateSpec. The operator name is used only in error values. */
module Interpreter {
  import Types
  import opened Values
  import opened Elements
  import opened AggregateSpec

  method EvalAllTrue(operand: Value) returns (r: Result<Value>)
    ensures r == AllTrue(operand)
    ensures operand.Null? ==> r == Ok(Bool(true))
  {
    if IsNull(operand) {
      return Ok(Bool(true));
    }
    var sl := ToSlice(operand);
    if sl.Err? {
      return Err(sl.error);
    }
    var l := sl.value;
    for i := 0 to |l|
      invariant ReduceBool(l[i..], false) == ReduceBool(l, false)
    {
      assert l[i..][1..] == l[i + 1..];
      var elem := l[i];
      if IsNull(elem) {
        continue;
      }
      var bv := ToBool(elem);
      if bv.Err? {
        return Err(bv.error);
      }
      if !bv.value {
        return Ok(Bool(false));
      }
    }
    return Ok(Bool(true));
  }

  method EvalAnyTrue(operand: Value) returns (r: Result<Value>)
    ensures r == AnyTrue(operand)
    ensures operand.Null? ==> r == Ok(Bool(false))
  {
    if IsNull(operand) {
      return Ok(Bool(false));
    }
    var sl := ToSlice(operand);
    if sl.Err? {
      return Err(sl.error);
    }
    var l := sl.value;
    for i := 0 to |l|
      invariant ReduceBool(l[i..], true) == ReduceBool(l, true)
    {
      assert l[i..][1..] == l[i + 1..];
      var elem := l[i];
      if IsNull(elem) {
        continue;
      }
      var bv := ToBool(elem);
      if bv.Err? {
        return Err(bv.error);
      }
      if bv.value {
        return Ok(Bool(true));
      }
    }
    return Ok(Bool(false));
  }

  method EvalCount(operand: Value) returns (r: Result<Value>)
    ensures r == Count(operand)
    ensures operand.Null? ==> r == Ok(Int(0))
  {
    if IsNull(operand) {
      return Ok(Int(0));
    }
    var sl := ToSlice(operand);
    if sl.Err? {
      return Err(sl.error);
    }
    var l := sl.value;
    var count := 0;
    for i := 0 to |l|
      invariant count == |NonNulls(l[..i])|
    {
      assert l[..i + 1] == l[..i] + [l[i]];
      NonNullsAppend(l[..i], [l[i]]);
      if !IsNull(l[i]) {
        count := count + 1;
      }
    }
    assert l[..|l|] == l;
    return Ok(Int(Wrap32(count)));
  }

  /** A first error found in a prefix of `l` is the first error of `l`. */
  lemma FirstErrorOfPrefix<T>(l: seq<Value>, n: nat, coerce: Value -> Result<T>)
    requires n <= |l| && FirstError(l[..n], coerce).Some?
    ensures FirstError(l, coerce) == FirstError(l[..n], coerce)
  {
    assert l == l[..n] + l[n..];
    FirstErrorAppend(l[..n], l[n..], coerce);
  }

  /** One more element of the list has been looked at. */
  lemma StepPrefix<T>(l: seq<Value>, i: nat, coerce: Value -> Result<T>)
    requires i < |l|
    ensures l[..i + 1][..i] == l[..i]
    ensures NonNulls(l[..i + 1]) == NonNulls(l[..i]) + NonNulls([l[i]])
    ensures FirstError(l[..i + 1], coerce)
         == if FirstError(l[..i], coerce).Some? then FirstError(l[..i], coerce) else FirstError([l[i]], coerce)
  {
    assert l[..i + 1] == l[..i] + [l[i]];
    NonNullsAppend(l[..i], [l[i]]);
    FirstErrorAppend(l[..i], [l[i]], coerce);
  }

  method SumIntegerList(l: seq<Value>) returns (r: Result<Value>)
    ensures r == SumIntegers(l)
  {
    var sum: int32 := 0;
    var foundValue := false;
    for i := 0 to |l|
      invariant FirstError(l[..i], ToInt32) == None
      invariant foundValue == (NonNulls(l[..i]) != [])
      invariant sum == Wrap32(IntegerTotal(l[..i]))
    {
      StepPrefix(l, i, ToInt32);
      if IsNull(l[i]) {
        continue;
      }
      foundValue := true;
      var v := ToInt32(l[i]);
      if v.Err? {
        FirstErrorOfPrefix(l, i + 1, ToInt32);
        return Err(v.error);
      }
      Wrap32Add(IntegerTotal(l[..i]), v.value);
      sum := Wrap32(sum + v.value);
    }
    assert l[..|l|] == l;
    if !foundValue {
      return Ok(Null(Types.Any));
    }
    return Ok(Int(sum));
  }

  method SumLongList(l: seq<Value>) returns (r: Result<Value>)
    ensures r == SumLongs(l)
  {
    var sum: int64 := 0;
    var foundValue := false;
    for i := 0 to |l|
      invariant FirstError(l[..i], ToInt64) == None
      invariant foundValue == (NonNulls(l[..i]) != [])
      invariant sum == Wrap64(LongTotal(l[..i]))
    {
      StepPrefix(l, i, ToInt64);
      if IsNull(l[i]) {
        continue;
      }
      foundValue := true;
      var v := ToInt64(l[i]);
      if v.Err? {
        FirstErrorOfPrefix(l, i + 1, ToInt64);
        return Err(v.error);
      }
      Wrap64Add(LongTotal(l[..i]), v.value);
      sum := Wrap64(sum + v.value);
    }
    assert l[..|l|] == l;
    if !foundValue {
      return Ok(Null(Types.Any));
    }
    return Ok(Long(sum));
  }

  method SumDecimalList(l: seq<Value>) returns (r: Result<Value>)
    ensures r == SumDecimals(l)
  {
    var sum: real := 0.0;
    var foundValue := false;
    for i := 0 to |l|
      invariant FirstError(l[..i], ToFloat64) == None
      invariant foundValue == (NonNulls(l[..i]) != [])
      invariant sum == DecimalTotal(l[..i])
    {
      StepPrefix(l, i, ToFloat64);
      if IsNull(l[i]) {
        continue;
      }
      foundValue := true;
      var v := ToFloat64(l[i]);
      if v.Err? {
        FirstErrorOfPrefix(l, i + 1, ToFloat64);
        return Err(v.error);
      }
      sum := sum + v.value;
    }
    assert l[..|l|] == l;
    if !foundValue {
      return Ok(Null(Types.Any));
    }
    return Ok(Dec(sum));
  }

  /** What the Quantity loop knows after looking at `l[..i]`: whether a
      present element was found, and if so that it fixed the unit of `sum`
      and that every present element so far is a Quantity of that unit. */
  ghost predicate QuantitiesSoFar(name: string, l: seq<Value>, i: nat, foundValue: bool, sum: Quantity)
    requires i <= |l|
  {
    && sum.value == QuantityTotal(l[..i])
    && (!foundValue ==> NonNulls(l[..i]) == [] && sum.value == 0.0)
    && (foundValue ==>
          && NonNulls(l[..i]) != []
          && NonNulls(l[..i])[0].Qty?
          && NonNulls(l[..i])[0].q.unit == sum.unit
          && FirstError(l[..i], InUnit(name, sum.unit)) == None)
  }

  lemma QuantitiesAtEnd(name: string, l: seq<Value>, foundValue: bool, sum: Quantity)
    requires QuantitiesSoFar(name, l, |l|, foundValue, sum)
    ensures SumQuantities(name, l) == if foundValue then Ok(Qty(sum)) else Ok(Null(Types.Any))
  {
    assert l[..|l|] == l;
  }

  lemma QuantitiesSkipNull(name: string, l: seq<Value>, i: nat, foundValue: bool, sum: Quantity)
    requires i < |l| && l[i].Null?
    requires QuantitiesSoFar(name, l, i, foundValue, sum)
    ensures QuantitiesSoFar(name, l, i + 1, foundValue, sum)
  {
    StepPrefix(l, i, InUnit(name, sum.unit));
  }

  lemma QuantitiesFirst(name: string, l: seq<Value>, i: nat, sum: Quantity)
    requires i < |l| && l[i].Qty?
    requires QuantitiesSoFar(name, l, i, false, sum)
    ensures QuantitiesSoFar(name, l, i + 1, true, Quantity(0.0 + l[i].q.value, l[i].q.unit))
  {
    StepPrefix(l, i, InUnit(name, l[i].q.unit));
    NullsHaveNoError(l[..i], InUnit(name, l[i].q.unit));
  }

  lemma QuantitiesNext(name: string, l: seq<Value>, i: nat, sum: Quantity)
    requires i < |l| && l[i].Qty? && l[i].q.unit == sum.unit
    requires QuantitiesSoFar(name, l, i, true, sum)
    ensures QuantitiesSoFar(name, l, i + 1, true, sum.(value := sum.value + l[i].q.value))
  {
    StepPrefix(l, i, InUnit(name, sum.unit));
  }

  /** A first present element that is not a Quantity is the error of the sum. */
  lemma QuantitiesStopAtFirst(name: string, l: seq<Value>, i: nat)
    requires i < |l| && !l[i].Null? && !l[i].Qty?
    requires NonNulls(l[..i]) == []
    ensures SumQuantities(name, l) == Err(CannotConvert(QuantityKind, RuntimeType(l[i])))
  {
    NonNullsEmpty(l[..i]);
    assert forall j :: 0 <= j < i ==> l[j] == l[..i][j];
    FirstNonNull(l, i);
  }

  /** A later present element that the unit fixed so far refuses is the
      error of the sum. */
  lemma QuantitiesStopLater(name: string, l: seq<Value>, i: nat, unit: string)
    requires i < |l| && !l[i].Null? && CoerceInUnit(name, unit, l[i]).Err?
    requires NonNulls(l[..i]) != [] && NonNulls(l[..i])[0].Qty? && NonNulls(l[..i])[0].q.unit == unit
    requires FirstError(l[..i], InUnit(name, unit)) == None
    ensures SumQuantities(name, l) == Err(CoerceInUnit(name, unit, l[i]).error)
  {
    FirstErrorAppend(l[..i], [l[i]], InUnit(name, unit));
    assert l[..i + 1] == l[..i] + [l[i]];
    FirstErrorOfPrefix(l, i + 1, InUnit(name, unit));
    assert l == l[..i] + l[i..];
    NonNullsAppend(l[..i], l[i..]);
    var present := NonNulls(l);
    assert present[0] == NonNulls(l[..i])[0];
  }

  method SumQuantityList(name: string, l: seq<Value>) returns (r: Result<Value>)
    ensures r == SumQuantities(name, l)
  {
    var sum := Quantity(0.0, "");
    var foundValue := false;
    for i := 0 to |l|
      invariant QuantitiesSoFar(name, l, i, foundValue, sum)
    {
      if IsNull(l[i]) {
        QuantitiesSkipNull(name, l, i, foundValue, sum);
        continue;
      }
      var v := ToQuantity(l[i]);
      if v.Err? {
        if foundValue {
          QuantitiesStopLater(name, l, i, sum.unit);
        } else {
          QuantitiesStopAtFirst(name, l, i);
        }
        return Err(v.error);
      }
      if !foundValue {
        QuantitiesFirst(name, l, i, sum);
        foundValue := true;
        sum := Quantity(0.0, v.value.unit);
      } else if sum.unit == v.value.unit {
        QuantitiesNext(name, l, i, sum);
      }
      if sum.unit != v.value.unit {
        QuantitiesStopLater(name, l, i, sum.unit);
        return Err(UnitMismatch(name, sum.unit, v.value.unit));
      }
      sum := sum.(value := sum.value + v.value.value);
    }
    QuantitiesAtEnd(name, l, foundValue, sum);
    if !foundValue {
      return Ok(Null(Types.Any));
    }
    return Ok(Qty(sum));
  }

  method EvalSum(name: string, operand: Value) returns (r: Result<Value>)
    ensures r == Sum(name, operand)
    ensures operand.Null? ==> r == Ok(Null(Types.Any))
    ensures operand.List? && operand.elementType == Types.Any ==> r == Ok(Null(Types.Any))
  {
    if IsNull(operand) {
      return Ok(Null(Types.Any));
    }
    var sl := ToSlice(operand);
    if sl.Err? {
      return Err(sl.error);
    }
    var l := sl.value;
    var lType := RuntimeType(operand);
    match lType.elementType
    case Any =>
      // Only a list of null runtime values has element type Any.
      r := Ok(Null(Types.Any));
    case Decimal =>
      r := SumDecimalList(l);
    case Integer =>
      r := SumIntegerList(l);
    case Long =>
      r := SumLongList(l);
    case Quantity =>
      r := SumQuantityList(name, l);
    case _ =>
      r := Err(NotNumericList(name, lType.elementType));
  }

}
