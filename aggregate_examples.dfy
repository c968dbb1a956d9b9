/** Concrete evaluations of the aggregate operators on small lists, derived
    from the general properties. */
module AggregateExamples {
  import Types
  import opened Values
  import opened Elements
  import opened AggregateSpec
  import opened AggregateProperties

  const booleans := Types.Boolean

  lemma AllTrueExamples()
    ensures AllTrue(Null(Types.List(booleans))) == Ok(Bool(true))
    ensures AllTrue(List(booleans, [])) == Ok(Bool(true))
    ensures AllTrue(List(booleans, [Bool(true), Null(booleans), Bool(true)])) == Ok(Bool(true))
    ensures AllTrue(List(booleans, [Bool(true), Null(booleans), Bool(false)])) == Ok(Bool(false))
    ensures AllTrue(List(booleans, [Bool(false), Str("x")])) == Ok(Bool(false))
    ensures AllTrue(List(Types.Any, [Str("x"), Bool(false)])) == Err(CannotConvert(BoolKind, Types.String))
    ensures AllTrue(Int(1)) == Err(CannotConvert(SliceKind, Types.Integer))
  {
    AllTrueOfBooleans(booleans, [Bool(true), Null(booleans), Bool(true)]);
    var s := [Bool(true), Null(booleans), Bool(false)];
    AllTrueOfBooleans(booleans, s);
    assert s[2] == Bool(false);
    AllTrueShortCircuits(booleans, [Bool(false)], 0, [Str("x")]);
    assert [Bool(false)][..1] + [Str("x")] == [Bool(false), Str("x")];
  }

  lemma AnyTrueExamples()
    ensures AnyTrue(Null(Types.List(booleans))) == Ok(Bool(false))
    ensures AnyTrue(List(booleans, [])) == Ok(Bool(false))
    ensures AnyTrue(List(booleans, [Bool(false), Null(booleans), Bool(false)])) == Ok(Bool(false))
    ensures AnyTrue(List(booleans, [Null(booleans), Bool(true)])) == Ok(Bool(true))
    ensures AnyTrue(List(booleans, [Bool(true), Int(7)])) == Ok(Bool(true))
  {
    AnyTrueOfBooleans(booleans, [Bool(false), Null(booleans), Bool(false)]);
    var s := [Null(booleans), Bool(true)];
    AnyTrueOfBooleans(booleans, s);
    assert s[1] == Bool(true);
  }

  lemma CountExamples()
    ensures Count(Null(Types.List(Types.Integer))) == Ok(Int(0))
    ensures Count(List(Types.Integer, [])) == Ok(Int(0))
    ensures Count(List(Types.Integer, [Int(1), Null(Types.Integer), Int(3)])) == Ok(Int(2))
  {
  }

  lemma SumOfIntegersExample()
    ensures Sum("Sum", List(Types.Integer, [Int(1), Null(Types.Integer), Int(3)])) == Ok(Int(4))
  {
    var s := [Int(1), Null(Types.Integer), Int(3)];
    assert s[..2] == [Int(1), Null(Types.Integer)];
    assert s[..2][..1] == [Int(1)];
    assert IntegerTotal([Int(1)]) == 1;
    assert IntegerTotal(s[..2]) == 1;
    assert IntegerTotal(s) == 4;
    SumOfIntegers("Sum", s);
  }

  lemma SumOfIntegersWrapsAround()
    ensures Sum("Sum", List(Types.Integer, [Int(0x7FFF_FFFF), Int(1)])) == Ok(Int(-0x8000_0000))
  {
    var s := [Int(0x7FFF_FFFF), Int(1)];
    assert s[..1] == [Int(0x7FFF_FFFF)];
    assert IntegerTotal(s) == 0x8000_0000;
    SumOfIntegers("Sum", s);
  }

  lemma SumExamples()
    ensures Sum("Sum", Null(Types.List(Types.Integer))) == Ok(Null(Types.Any))
    ensures Sum("Sum", List(Types.Integer, [])) == Ok(Null(Types.Any))
    ensures Sum("Sum", List(Types.Integer, [Null(Types.Integer), Null(Types.Integer)])) == Ok(Null(Types.Any))
    ensures Sum("Sum", List(Types.Any, [Null(Types.Any), Null(Types.Any), Null(Types.Any)])) == Ok(Null(Types.Any))
    ensures Sum("Sum", List(Types.Boolean, [Bool(true)])) == Err(NotNumericList("Sum", Types.Boolean))
    ensures Sum("Sum", List(Types.Long, [Long(2), Int(3)])) == Err(CannotConvert(Int64Kind, Types.Integer))
  {
  }

  lemma SumOfQuantitiesExamples()
    ensures Sum("Sum", List(Types.Quantity, [Qty(Quantity(2.0, "mg")), Qty(Quantity(3.0, "mg"))]))
         == Ok(Qty(Quantity(5.0, "mg")))
    ensures Sum("Sum", List(Types.Quantity, [Qty(Quantity(2.0, "mg")), Qty(Quantity(3.0, "g"))]))
         == Err(UnitMismatch("Sum", "mg", "g"))
  {
    var same := [Qty(Quantity(2.0, "mg")), Qty(Quantity(3.0, "mg"))];
    assert same[..1] == [Qty(Quantity(2.0, "mg"))];
    assert QuantityTotal(same) == 5.0;
    SumOfQuantitiesInOneUnit("Sum", same, "mg");
    SumOfQuantitiesUnitMismatch("Sum", [Qty(Quantity(2.0, "mg")), Qty(Quantity(3.0, "g"))], 0, 1);
  }

}
