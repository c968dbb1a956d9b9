/** What the aggregate operators promise, proved about their specification:
    the null operand and null elements, short-circuiting, counting, the
    null-versus-zero rule of Sum, wrap-around, and unit consistency. */
module AggregateProperties {
  import Types
  import opened Values
  import opened Elements
  import opened AggregateSpec

  // ---------------------------------------------------------------- AllTrue / AnyTrue

  /** The scan yields its default exactly when it steps over every element. */
  lemma {:induction false} ReduceBoolDefault(s: seq<Value>, decisive: bool)
    ensures ReduceBool(s, decisive) == Ok(!decisive) <==> forall i :: 0 <= i < |s| ==> Passes(s[i], decisive)
  {
    if s != [] {
      ReduceBoolDefault(s[1..], decisive);
      assert forall i :: 1 <= i < |s| ==> s[i] == s[1..][i - 1];
    }
  }

  /** The first element the scan does not step over decides the result: the
      deciding Boolean is the answer, anything else that is not a Boolean is
      the coercion error. */
  lemma {:induction false} ReduceBoolStopsAt(s: seq<Value>, decisive: bool, k: nat)
    requires k < |s| && !Passes(s[k], decisive)
    requires forall j :: 0 <= j < k ==> Passes(s[j], decisive)
    ensures s[k].Bool? ==> ReduceBool(s, decisive) == Ok(decisive)
    ensures !s[k].Bool? ==> ReduceBool(s, decisive) == Err(CannotConvert(BoolKind, RuntimeType(s[k])))
  {
    if k > 0 {
      assert Passes(s[0], decisive);
      ReduceBoolStopsAt(s[1..], decisive, k - 1);
    }
  }

  /** Short-circuit: once a prefix has decided the result or failed, nothing
      that follows is looked at, so it cannot change the result or fail. */
  lemma {:induction false} ReduceBoolPrefixDecides(s: seq<Value>, rest: seq<Value>, decisive: bool)
    requires ReduceBool(s, decisive) != Ok(!decisive)
    ensures ReduceBool(s + rest, decisive) == ReduceBool(s, decisive)
  {
    assert s != [];
    assert (s + rest)[0] == s[0];
    assert (s + rest)[1..] == s[1..] + rest;
    if s[0].Null? || s[0] == Bool(!decisive) {
      ReduceBoolPrefixDecides(s[1..], rest, decisive);
    }
  }

  /** Null elements are skipped: the list without them gives the same result. */
  lemma {:induction false} ReduceBoolSkipsNulls(s: seq<Value>, decisive: bool)
    ensures ReduceBool(NonNulls(s), decisive) == ReduceBool(s, decisive)
  {
    if s != [] {
      ReduceBoolSkipsNulls(s[1..], decisive);
      if s[0].Null? {
        assert NonNulls(s) == NonNulls(s[1..]);
      } else {
        var present := NonNulls(s);
        assert present == [s[0]] + NonNulls(s[1..]);
        assert present != [] && present[0] == s[0] && present[1..] == NonNulls(s[1..]);
      }
    }
  }

  /** On a list of Booleans and nulls the scan never fails and answers
      `decisive` exactly when some element is `decisive`. */
  lemma {:induction false} ReduceBoolOnBooleans(s: seq<Value>, decisive: bool)
    requires forall i :: 0 <= i < |s| ==> s[i].Null? || s[i].Bool?
    ensures ReduceBool(s, decisive).Ok?
    ensures ReduceBool(s, decisive).value == decisive <==> exists i :: 0 <= i < |s| && s[i] == Bool(decisive)
  {
    if s != [] {
      assert forall i :: 1 <= i < |s| ==> s[i] == s[1..][i - 1];
      ReduceBoolOnBooleans(s[1..], decisive);
      if s[0] != Bool(decisive) {
        assert (exists i :: 0 <= i < |s| && s[i] == Bool(decisive))
           <==> (exists i :: 0 <= i < |s[1..]| && s[1..][i] == Bool(decisive));
      }
    }
  }

  /** AllTrue of a List<Boolean>: false exactly when some element is false,
      true otherwise (in particular for an empty or all-null list). */
  lemma AllTrueOfBooleans(t: Types.IType, s: seq<Value>)
    requires forall i :: 0 <= i < |s| ==> s[i].Null? || s[i].Bool?
    ensures AllTrue(List(t, s)) == Ok(Bool(false)) <==> exists i :: 0 <= i < |s| && s[i] == Bool(false)
    ensures AllTrue(List(t, s)) == Ok(Bool(true)) <==> forall i :: 0 <= i < |s| ==> s[i] != Bool(false)
  {
    ReduceBoolOnBooleans(s, false);
  }

  /** AnyTrue of a List<Boolean>: true exactly when some element is true,
      false otherwise (in particular for an empty or all-null list). */
  lemma AnyTrueOfBooleans(t: Types.IType, s: seq<Value>)
    requires forall i :: 0 <= i < |s| ==> s[i].Null? || s[i].Bool?
    ensures AnyTrue(List(t, s)) == Ok(Bool(true)) <==> exists i :: 0 <= i < |s| && s[i] == Bool(true)
    ensures AnyTrue(List(t, s)) == Ok(Bool(false)) <==> forall i :: 0 <= i < |s| ==> s[i] != Bool(true)
  {
    ReduceBoolOnBooleans(s, true);
  }

  /** AllTrue stops at the first false: whatever follows it, even a value
      that is not a Boolean, the answer is false. */
  lemma AllTrueShortCircuits(t: Types.IType, s: seq<Value>, k: nat, rest: seq<Value>)
    requires k < |s| && s[k] == Bool(false)
    requires forall j :: 0 <= j < k ==> s[j].Null? || s[j] == Bool(true)
    ensures AllTrue(List(t, s[..k + 1] + rest)) == Ok(Bool(false))
  {
    ReduceBoolStopsAt(s[..k + 1], false, k);
    ReduceBoolPrefixDecides(s[..k + 1], rest, false);
  }

  /** AnyTrue stops at the first true in the same way. */
  lemma AnyTrueShortCircuits(t: Types.IType, s: seq<Value>, k: nat, rest: seq<Value>)
    requires k < |s| && s[k] == Bool(true)
    requires forall j :: 0 <= j < k ==> s[j].Null? || s[j] == Bool(false)
    ensures AnyTrue(List(t, s[..k + 1]  + rest)) == Ok(Bool(true))
  {
    ReduceBoolStopsAt(s[..k + 1], true, k);
    ReduceBoolPrefixDecides(s[..k + 1], rest, true);
  }

  /** A value that is not a Boolean, met before the deciding element, is the
      error of AllTrue; AnyTrue behaves in the same way. */
  lemma AllTrueCoercionError(t: Types.IType, s: seq<Value>, k: nat)
    requires k < |s| && !s[k].Null? && !s[k].Bool?
    requires forall j :: 0 <= j < k ==> s[j].Null? || s[j] == Bool(true)
    ensures AllTrue(List(t, s)) == Err(CannotConvert(BoolKind, RuntimeType(s[k])))
  {
    ReduceBoolStopsAt(s, false, k);
  }

  lemma AnyTrueCoercionError(t: Types.IType, s: seq<Value>, k: nat)
    requires k < |s| && !s[k].Null? && !s[k].Bool?
    requires forall j :: 0 <= j < k ==> s[j].Null? || s[j] == Bool(false)
    ensures AnyTrue(List(t, s)) == Err(CannotConvert(BoolKind, RuntimeType(s[k])))
  {
    ReduceBoolStopsAt(s, true, k);
  }

  // ---------------------------------------------------------------- Count

  /** Count of a present list is the number of its non-null elements: never
      null, between 0 and the length, 0 exactly when all are null and the
      length exactly when none is. */
  lemma CountIsNonNullCount(t: Types.IType, s: seq<Value>)
    requires |s| < 0x8000_0000
    ensures Count(List(t, s)) == Ok(Int(|NonNulls(s)|))
    ensures 0 <= |NonNulls(s)| <= |s|
    ensures |NonNulls(s)| == 0 <==> forall i :: 0 <= i < |s| ==> s[i].Null?
    ensures |NonNulls(s)| == |s| <==> forall i :: 0 <= i < |s| ==> !s[i].Null?
  {
    NonNullsEmpty(s);
    NonNullsAll(s);
  }

  /** What Count counts: each non-null value as often as it occurs in the
      list, and no null. */
  lemma CountCountsOccurrences(s: seq<Value>)
    ensures forall v :: multiset(NonNulls(s))[v] == if v.Null? then 0 else multiset(s)[v]
  {
    forall v ensures multiset(NonNulls(s))[v] == if v.Null? then 0 else multiset(s)[v] {
      NonNullsMultiset(s, v);
    }
  }

  // ---------------------------------------------------------------- Sum

  /** Sum is null, rather than zero, exactly when no element is present. */
  lemma SumIsNullExactlyWhenNoValue(name: string, s: seq<Value>)
    ensures SumIntegers(s) == Ok(Null(Types.Any)) <==> forall i :: 0 <= i < |s| ==> s[i].Null?
    ensures SumLongs(s) == Ok(Null(Types.Any)) <==> forall i :: 0 <= i < |s| ==> s[i].Null?
    ensures SumDecimals(s) == Ok(Null(Types.Any)) <==> forall i :: 0 <= i < |s| ==> s[i].Null?
    ensures SumQuantities(name, s) == Ok(Null(Types.Any)) <==> forall i :: 0 <= i < |s| ==> s[i].Null?
  {
    NonNullsEmpty(s);
    if NonNulls(s) == [] {
      NullsHaveNoError(s, ToInt32);
      NullsHaveNoError(s, ToInt64);
      NullsHaveNoError(s, ToFloat64);
    }
  }

  /** Sum over a List<Any> is null whatever the list holds. */
  lemma SumOfAnyIsNull(name: string, s: seq<Value>)
    ensures Sum(name, List(Types.Any, s)) == Ok(Null(Types.Any))
  {
  }

  /** Any other element type is refused. */
  lemma SumRejectsOtherElementTypes(name: string, et: Types.IType, s: seq<Value>)
    requires et !in {Types.Any, Types.Integer, Types.Long, Types.Decimal, Types.Quantity}
    ensures Sum(name, List(et, s)) == Err(NotNumericList(name, et))
  {
  }

  /** Sum over a List<Integer> with a present element is the total of the
      elements modulo 2^32 in the int32 range, and the exact total when that
      fits. */
  lemma SumOfIntegers(name: string, s: seq<Value>)
    requires forall i :: 0 <= i < |s| ==> s[i].Null? || s[i].Int?
    requires exists i :: 0 <= i < |s| && !s[i].Null?
    ensures SumIntegers(s) == Ok(Int(Wrap32(IntegerTotal(s))))
    ensures (IntegerTotal(s) - Wrap32(IntegerTotal(s))) % 0x1_0000_0000 == 0
    ensures -0x8000_0000 <= IntegerTotal(s) < 0x8000_0000 ==> SumIntegers(s) == Ok(Int(IntegerTotal(s)))
  {
    FirstErrorNone(s, ToInt32);
    var k :| 0 <= k < |s| && !s[k].Null?;
    NonNullsEmpty(s);
  }

  /** Sum over a List<Long>, in the same way modulo 2^64. */
  lemma SumOfLongs(name: string, s: seq<Value>)
    requires forall i :: 0 <= i < |s| ==> s[i].Null? || s[i].Long?
    requires exists i :: 0 <= i < |s| && !s[i].Null?
    ensures SumLongs(s) == Ok(Long(Wrap64(LongTotal(s))))
    ensures (LongTotal(s) - Wrap64(LongTotal(s))) % 0x1_0000_0000_0000_0000 == 0
    ensures -0x8000_0000_0000_0000 <= LongTotal(s) < 0x8000_0000_0000_0000 ==> SumLongs(s) == Ok(Long(LongTotal(s)))
  {
    FirstErrorNone(s, ToInt64);
    var k :| 0 <= k < |s| && !s[k].Null?;
    NonNullsEmpty(s);
  }

  /** Sum over a List<Decimal> with a present element is the total. */
  lemma SumOfDecimals(name: string, s: seq<Value>)
    requires forall i :: 0 <= i < |s| ==> s[i].Null? || s[i].Dec?
    requires exists i :: 0 <= i < |s| && !s[i].Null?
    ensures SumDecimals(s) == Ok(Dec(DecimalTotal(s)))
  {
    FirstErrorNone(s, ToFloat64);
    var k :| 0 <= k < |s| && !s[k].Null?;
    NonNullsEmpty(s);
  }

  /** Whether a present element has the kind the element type promises. */
  predicate OfElementType(et: Types.IType, v: Value) {
    match et
    case Integer => v.Int?
    case Long => v.Long?
    case Decimal => v.Dec?
    case Quantity => v.Qty?
    case _ => false
  }

  function KindOf(et: Types.IType): Kind {
    match et
    case Integer => Int32Kind
    case Long => Int64Kind
    case Decimal => Float64Kind
    case _ => QuantityKind
  }

  /** A numeric Sum fails at the first present element of the wrong kind,
      with that element's coercion error, however many elements follow. */
  lemma SumNumericCoercionError(name: string, et: Types.IType, s: seq<Value>, k: nat)
    requires et == Types.Integer || et == Types.Long || et == Types.Decimal
    requires k < |s| && !s[k].Null? && !OfElementType(et, s[k])
    requires forall j :: 0 <= j < k ==> s[j].Null? || OfElementType(et, s[j])
    ensures Sum(name, List(et, s)) == Err(CannotConvert(KindOf(et), RuntimeType(s[k])))
  {
    match et
    case Integer => FirstErrorAt(s, ToInt32, k);
    case Long => FirstErrorAt(s, ToInt64, k);
    case Decimal => FirstErrorAt(s, ToFloat64, k);
  }

  /** If a Quantity sum succeeds, some element is present, the result's unit
      is the unit of the first present element, every present element is a
      Quantity of that unit, and the magnitude is their total. */
  lemma SumOfQuantitiesResult(name: string, s: seq<Value>, q: Quantity)
    requires SumQuantities(name, s) == Ok(Qty(q))
    ensures NonNulls(s) != [] && NonNulls(s)[0].Qty? && NonNulls(s)[0].q.unit == q.unit
    ensures forall i :: 0 <= i < |s| ==> s[i].Null? || (s[i].Qty? && s[i].q.unit == q.unit)
    ensures q.value == QuantityTotal(s)
  {
    var present := NonNulls(s);
    assert present != [] && present[0].Qty?;
    assert FirstError(s, InUnit(name, present[0].q.unit)) == None;
    assert q == Quantity(QuantityTotal(s), present[0].q.unit);
    AllInUnitWhenNoError(name, s, q.unit);
  }

  /** No element was refused by a Quantity sum of `unit`: every present
      element is a Quantity of that unit. */
  lemma AllInUnitWhenNoError(name: string, s: seq<Value>, unit: string)
    requires FirstError(s, InUnit(name, unit)) == None
    ensures forall i :: 0 <= i < |s| ==> s[i].Null? || (s[i].Qty? && s[i].q.unit == unit)
  {
    FirstErrorNone(s, InUnit(name, unit));
    forall i | 0 <= i < |s| && !s[i].Null?
      ensures s[i].Qty? && s[i].q.unit == unit
    {
      assert InUnit(name, unit)(s[i]).Ok?;
    }
  }

  /** A Quantity list whose present elements share one unit sums to a
      Quantity of that unit. */
  lemma SumOfQuantitiesInOneUnit(name: string, s: seq<Value>, unit: string)
    requires forall i :: 0 <= i < |s| ==> s[i].Null? || (s[i].Qty? && s[i].q.unit == unit)
    requires exists i :: 0 <= i < |s| && !s[i].Null?
    ensures SumQuantities(name, s) == Ok(Qty(Quantity(QuantityTotal(s), unit)))
  {
    var k :| 0 <= k < |s| && !s[k].Null?;
    FirstUnitBefore(s, |s|, unit);
    FirstErrorNone(s, InUnit(name, unit));
  }

  /** Two present Quantities of different units: the sum is an error that
      names the unit fixed by the first present element and the other one. */
  lemma SumOfQuantitiesUnitMismatch(name: string, s: seq<Value>, j: nat, k: nat)
    requires j < k < |s| && s[j].Qty? && s[k].Qty? && s[k].q.unit != s[j].q.unit
    requires forall i :: 0 <= i < k ==> s[i].Null? || (s[i].Qty? && s[i].q.unit == s[j].q.unit)
    ensures SumQuantities(name, s) == Err(UnitMismatch(name, s[j].q.unit, s[k].q.unit))
  {
    var unit := s[j].q.unit;
    FirstUnitBefore(s, k, unit);
    FirstErrorAt(s, InUnit(name, unit), k);
  }

  /** A present element that is not a Quantity, met while all earlier present
      elements share one unit, is the error of the sum. */
  lemma SumOfQuantitiesCoercionError(name: string, s: seq<Value>, k: nat, unit: string)
    requires k < |s| && !s[k].Null? && !s[k].Qty?
    requires forall i :: 0 <= i < k ==> s[i].Null? || (s[i].Qty? && s[i].q.unit == unit)
    ensures SumQuantities(name, s) == Err(CannotConvert(QuantityKind, RuntimeType(s[k])))
  {
    if forall i :: 0 <= i < k ==> s[i].Null? {
      FirstNonNull(s, k);
    } else {
      FirstUnitBefore(s, k, unit);
      FirstErrorAt(s, InUnit(name, unit), k);
    }
  }

  /** When some element before `k` is present and all present elements before
      `k` are Quantities of `unit`, the first present element is one of them. */
  lemma FirstUnitBefore(s: seq<Value>, k: nat, unit: string)
    requires k <= |s|
    requires forall i :: 0 <= i < k ==> s[i].Null? || (s[i].Qty? && s[i].q.unit == unit)
    requires exists i :: 0 <= i < k && !s[i].Null?
    ensures NonNulls(s) != [] && NonNulls(s)[0].Qty? && NonNulls(s)[0].q.unit == unit
  {
    assert s == s[..k] + s[k..];
    NonNullsAppend(s[..k], s[k..]);
    var j :| 0 <= j < k && !s[j].Null?;
    NonNullsEmpty(s[..k]);
    FirstPresentIsElement(s[..k]);
    var i :| 0 <= i < k && s[..k][i] == NonNulls(s[..k])[0];
    assert s[i] == NonNulls(s)[0];
  }

}
