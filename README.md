# CQL aggregate operators

This project models the aggregate operators of a Go interpreter for CQL (Clinical Quality Language). The four operators are `AllTrue`, `AnyTrue`, `Count` and `Sum`. Each takes one already evaluated operand. That operand is either a null value that still carries its CQL type, or a list value with a declared element type whose elements are runtime values.

- `AllTrue` and `AnyTrue` scan a list of Booleans. They skip nulls and stop at the first deciding Boolean. A null operand gives `true` for `AllTrue` and `false` for `AnyTrue`.
- `Count` counts the non-null elements. A null operand gives 0.
- `Sum` dispatches on the element type of the operand's runtime list type: Integer (a 32-bit accumulator that wraps around), Long (a 64-bit accumulator that wraps around), Decimal, Quantity (the first present element fixes the unit), and `Any` (always null). Sum is null when no element is present, unlike Count, which gives 0.

Layout:

- `types.dfy`: module `Types`, the CQL types a runtime value can carry.
- `values.dfy`: module `Values`, the runtime values of the `result` package. It holds the coercions (`ToSlice`, `ToBool`, `ToInt32`, ...), their errors, and Go's int32/int64 wrap-around.
- `elements.dfy`: module `Elements`, what every aggregate loop does with its elements. The loops skip nulls (`NonNulls`), stop at the first element that does not coerce (`FirstError`), and add up the rest (`IntegerTotal`, ...).
- `aggregate_spec.dfy`: module `AggregateSpec`, the meaning of each operator as a function of its operand (`AllTrue`, `AnyTrue`, `Count`, `Sum`).
- `interpreter.dfy`: module `Interpreter`, the interpreter's operators as methods. Each walks its list in a loop as the Go code does, and each is proved equal to the specification function.
- `aggregate_properties.dfy`: module `AggregateProperties`, the promises of the operators, proved about the specification. These cover null handling, short-circuiting, counting, null versus zero, wrap-around, unit consistency and the error cases.
- `aggregate_examples.dfy`: module `AggregateExamples`, concrete evaluations. Some are derived from the general lemmas; `CountExamples` and `SumExamples` follow from the definitions directly.

Two behaviours of the code worth noting:

- **Errors after the deciding element.** `AllTrue` does not fail on every non-null element that is not a Boolean. It fails only on one met before the first `false`, because the loop returns at that `false` (`interpreter/operator_aggregate.go:45-47`). `AnyTrue` behaves the same way at the first `true`. `AllTrueShortCircuits` and `AnyTrueShortCircuits` state this.
- **Order can matter.** Errors depend on element order. The first element that fails to coerce is the one reported. In a Quantity sum, the first present element decides which unit counts as the expected one in a unit-mismatch error. The Go Decimal and Quantity totals are float64 sums, and float64 addition is not associative, so even successful sums can depend on order. The model's magnitudes are exact reals, and no lemma here states order independence.

## Model

| member | source | states |
|---|---|---|
| Values.Wrap32 | interpreter/operator_aggregate.go:136-147 | the int32 that Go's `sum += v` produces: differs from the exact value by a multiple of 2^32, and is the value itself when it is in the int32 range |
| Values.Wrap64 | interpreter/operator_aggregate.go:154-165 | the same for int64 and 2^64 |
| Values.Wrap32Add | interpreter/operator_aggregate.go:147 | adding to a sum that has already wrapped gives the same int32 as wrapping the exact total once, so the step-by-step wrap and a single final wrap agree |
| Values.Wrap64Add | interpreter/operator_aggregate.go:165 | the same for int64 |
| Values.RuntimeType | interpreter/operator_aggregate.go:109 | a present value's runtime type is a list type exactly when the value is a list, and then it is `List<element type>`; this is why the "operand is not a list" branch cannot be reached |
| Values.ToSlice | interpreter/operator_aggregate.go:33-36 | succeeds exactly on a list value and yields its elements; any other operand is a conversion error naming the operand's runtime type |
| Values.ToBool | interpreter/operator_aggregate.go:41-44 | succeeds exactly on a Boolean and yields it; otherwise a conversion error naming the element's runtime type |
| Values.ToInt32 | interpreter/operator_aggregate.go:143-146 | succeeds exactly on an Integer and yields it; otherwise a conversion error |
| Values.ToInt64 | interpreter/operator_aggregate.go:161-164 | succeeds exactly on a Long and yields it; otherwise a conversion error |
| Values.ToFloat64 | interpreter/operator_aggregate.go:125-128 | succeeds exactly on a Decimal and yields it; otherwise a conversion error |
| Values.ToQuantity | interpreter/operator_aggregate.go:178-181 | succeeds exactly on a Quantity and yields it; otherwise a conversion error |
| Elements.NonNulls | interpreter/operator_aggregate.go:38-40 | the elements a loop does not skip: no more of them than elements, and none of them null |
| Elements.NonNullsAppend | interpreter/operator_aggregate.go:88-92 | skipping nulls in two consecutive parts of a list skips them in the whole list |
| Elements.NonNullsEmpty | interpreter/operator_aggregate.go:131-133 | no element is present exactly when every element is null |
| Elements.FirstPresentIsElement | interpreter/operator_aggregate.go:182-185 | the first present element is an element of the list |
| Elements.NonNullsAll | interpreter/operator_aggregate.go:88-92 | every element is present exactly when no element is null |
| Elements.NonNullsMultiset | interpreter/operator_aggregate.go:88-92 | skipping keeps each non-null value as often as it occurs in the list, and keeps no null |
| Elements.FirstNonNull | interpreter/operator_aggregate.go:174-181 | when all elements before index j are null and element j is not, element j is the first present element |
| Elements.FirstErrorAppend | interpreter/operator_aggregate.go:120-130 | the first coercion error of two consecutive parts is the first part's error if it has one, and otherwise the second part's |
| Elements.FirstErrorNone | interpreter/operator_aggregate.go:120-130 | no element fails to coerce exactly when every non-null element coerces |
| Elements.NullsHaveNoError | interpreter/operator_aggregate.go:121-123 | a list of nulls raises no coercion error, because nulls are never coerced |
| Elements.FirstErrorAt | interpreter/operator_aggregate.go:156-166 | the loop's error is the coercion error of element k when k is the first non-null element that does not coerce |
| AggregateSpec.CoerceInUnit | interpreter/operator_aggregate.go:178-188 | a Quantity sum in unit u accepts an element exactly when it is a Quantity of unit u, and then takes its magnitude; a non-Quantity is a conversion error; a Quantity of another unit is a unit-mismatch error naming u first and the other unit second |
| Interpreter.EvalAllTrue | interpreter/operator_aggregate.go:29-50 | computes `AllTrue`: true for a null operand, a conversion error for an operand that is not a list, and otherwise the result of the null-skipping, short-circuiting scan |
| Interpreter.EvalAnyTrue | interpreter/operator_aggregate.go:54-75 | computes `AnyTrue`: false for a null operand, a conversion error for an operand that is not a list, and otherwise the result of the scan that stops at the first true |
| Interpreter.EvalCount | interpreter/operator_aggregate.go:79-94 | computes `Count`: 0 for a null operand, a conversion error for an operand that is not a list, and otherwise the number of non-null elements as an Integer |
| Interpreter.FirstErrorOfPrefix | interpreter/operator_aggregate.go:143-146 | an error met in a prefix of the list is the error of the whole loop |
| Interpreter.StepPrefix | interpreter/operator_aggregate.go:138-148 | one more iteration extends the skipped-null view and the first-error view of the prefix by one element |
| Interpreter.SumIntegerList | interpreter/operator_aggregate.go:135-152 | computes `SumIntegers`: the first coercion error, null when no element is present, and otherwise the exact total wrapped once into int32 |
| Interpreter.SumLongList | interpreter/operator_aggregate.go:153-170 | computes `SumLongs`: the first coercion error, null when no element is present, and otherwise the exact total wrapped once into int64 |
| Interpreter.SumDecimalList | interpreter/operator_aggregate.go:117-134 | computes `SumDecimals`: the first coercion error, null when no element is present, and otherwise the total |
| Interpreter.QuantitiesAtEnd | interpreter/operator_aggregate.go:191-194 | after the Quantity loop, the result is null if no element was found and otherwise the running sum, matching `SumQuantities` |
| Interpreter.QuantitiesSkipNull | interpreter/operator_aggregate.go:175-177 | skipping a null keeps what the Quantity loop knows |
| Interpreter.QuantitiesFirst | interpreter/operator_aggregate.go:182-189 | the first present Quantity fixes the unit, and its magnitude starts the total |
| Interpreter.QuantitiesNext | interpreter/operator_aggregate.go:186-189 | a later Quantity of the same unit adds its magnitude to the total |
| Interpreter.QuantitiesStopAtFirst | interpreter/operator_aggregate.go:178-181 | when the first present element is not a Quantity, its conversion error is the result of the sum |
| Interpreter.QuantitiesStopLater | interpreter/operator_aggregate.go:178-188 | a later element that the fixed unit refuses (not a Quantity, or another unit) gives the error of the sum |
| Interpreter.SumQuantityList | interpreter/operator_aggregate.go:171-194 | computes `SumQuantities`: null when no element is present, otherwise the first conversion error or unit mismatch, or the total in the first present element's unit |
| Interpreter.EvalSum | interpreter/operator_aggregate.go:101-198 | computes `Sum`: null for a null operand and for a List<Any>, a conversion error for an operand that is not a list, dispatch on the declared element type to the four sums, and a "not numeric" error for any other element type |
| AggregateProperties.ReduceBoolDefault | interpreter/operator_aggregate.go:37-49 | the scan returns its default exactly when every element is null or the non-deciding Boolean |
| AggregateProperties.ReduceBoolStopsAt | interpreter/operator_aggregate.go:37-48 | the first element that is neither null nor the non-deciding Boolean decides: the deciding Boolean is the answer, any other value is a conversion error naming its type |
| AggregateProperties.ReduceBoolPrefixDecides | interpreter/operator_aggregate.go:42-47 | short-circuit: once a prefix has decided or failed, appending any elements changes nothing |
| AggregateProperties.ReduceBoolSkipsNulls | interpreter/operator_aggregate.go:38-40 | removing the null elements does not change the scan's result |
| AggregateProperties.ReduceBoolOnBooleans | interpreter/operator_aggregate.go:37-49 | on Booleans and nulls the scan never fails, and answers the deciding value exactly when it occurs |
| AggregateProperties.AllTrueOfBooleans | interpreter/operator_aggregate.go:29-50 | AllTrue of Booleans and nulls is false exactly when some element is false, and true exactly when none is (so also for empty and all-null lists) |
| AggregateProperties.AnyTrueOfBooleans | interpreter/operator_aggregate.go:54-75 | AnyTrue of Booleans and nulls is true exactly when some element is true, and false exactly when none is |
| AggregateProperties.AllTrueShortCircuits | interpreter/operator_aggregate.go:45-47 | AllTrue is false at the first false element, whatever follows it, including values that are not Booleans |
| AggregateProperties.AnyTrueShortCircuits | interpreter/operator_aggregate.go:70-72 | AnyTrue is true at the first true element, whatever follows it |
| AggregateProperties.AllTrueCoercionError | interpreter/operator_aggregate.go:41-44 | a value that is not a Boolean, met before any false, is AllTrue's error |
| AggregateProperties.AnyTrueCoercionError | interpreter/operator_aggregate.go:66-69 | a value that is not a Boolean, met before any true, is AnyTrue's error |
| AggregateProperties.CountIsNonNullCount | interpreter/operator_aggregate.go:87-93 | Count of a list shorter than 2^31 is the number of non-null elements: at most the length, 0 exactly when all are null, the length exactly when none is |
| AggregateProperties.CountCountsOccurrences | interpreter/operator_aggregate.go:88-92 | what Count counts: each non-null value as often as it occurs, and no null |
| AggregateProperties.SumIsNullExactlyWhenNoValue | interpreter/operator_aggregate.go:131-133 | each of the four sums is null exactly when every element is null (so also for the empty list), never zero in that case |
| AggregateProperties.SumOfAnyIsNull | interpreter/operator_aggregate.go:114-116 | Sum over a List<Any> is null whatever the list holds |
| AggregateProperties.SumRejectsOtherElementTypes | interpreter/operator_aggregate.go:195-196 | Sum over any other element type is the "not numeric" error |
| AggregateProperties.SumOfIntegers | interpreter/operator_aggregate.go:135-152 | an Integer list with a present element sums to its total wrapped into int32: congruent to the total modulo 2^32, and equal to it when it fits |
| AggregateProperties.SumOfLongs | interpreter/operator_aggregate.go:153-170 | a Long list with a present element sums to its total wrapped into int64: congruent modulo 2^64, equal when it fits |
| AggregateProperties.SumOfDecimals | interpreter/operator_aggregate.go:117-134 | a Decimal list with a present element sums to its total |
| AggregateProperties.SumNumericCoercionError | interpreter/operator_aggregate.go:125-128 | a numeric Sum fails with the conversion error of the first present element of the wrong kind, whatever follows it |
| AggregateProperties.SumOfQuantitiesResult | interpreter/operator_aggregate.go:171-194 | a successful Quantity sum has the first present element's unit, every present element is a Quantity of that unit, and its magnitude is their total |
| AggregateProperties.AllInUnitWhenNoError | interpreter/operator_aggregate.go:178-188 | a Quantity loop that refused nothing saw only Quantities of its unit |
| AggregateProperties.SumOfQuantitiesInOneUnit | interpreter/operator_aggregate.go:171-194 | Quantities sharing one unit, with at least one present, sum to their total in that unit |
| AggregateProperties.SumOfQuantitiesUnitMismatch | interpreter/operator_aggregate.go:186-188 | a present Quantity of another unit than the first one is a unit-mismatch error naming the first unit and then the other |
| AggregateProperties.SumOfQuantitiesCoercionError | interpreter/operator_aggregate.go:178-181 | a present element that is not a Quantity, met while the earlier present elements share one unit, is the error of the sum |
| AggregateProperties.FirstUnitBefore | interpreter/operator_aggregate.go:182-185 | when the present elements before k are Quantities of one unit and one exists, the first present element of the list has that unit |
| AggregateExamples.AllTrueExamples | interpreter/operator_aggregate.go:29-50 | AllTrue of null, of [], of [true, null, true] and of [true, null, false]; a later non-Boolean after false is not looked at; a leading non-Boolean is an error; a non-list operand is an error |
| AggregateExamples.AnyTrueExamples | interpreter/operator_aggregate.go:54-75 | AnyTrue of null, of [], of [false, null, false], of [null, true], and of [true, 7], which stops before the 7 |
| AggregateExamples.CountExamples | interpreter/operator_aggregate.go:79-94 | Count of null and of [] is 0; Count of [1, null, 3] is 2 |
| AggregateExamples.SumOfIntegersExample | interpreter/operator_aggregate.go:135-152 | Sum of [1, null, 3] as List<Integer> is 4 |
| AggregateExamples.SumOfIntegersWrapsAround | interpreter/operator_aggregate.go:136-147 | Sum of [2147483647, 1] as List<Integer> wraps to -2147483648 |
| AggregateExamples.SumExamples | interpreter/operator_aggregate.go:101-198 | Sum of null, of [], of [null, null] and of a List<Any> is null; a List<Boolean> is refused; a Long list holding an Integer is a conversion error |
| AggregateExamples.SumOfQuantitiesExamples | interpreter/operator_aggregate.go:171-194 | 2 mg + 3 mg is 5 mg; 2 mg + 3 g is a unit-mismatch error naming mg and g |

## Left out

- **The interpreter receiver and operator dispatch.** The receiver `i *interpreter` and the dispatch that calls these functions are not modelled. Each operator takes the evaluated operand directly.
- **The model expression `m`.** It is used only for its name in Sum's error messages, so it is modelled as a `name` string. AllTrue, AnyTrue and Count never use it.
- **Error wording.** Errors are structured values (`CannotConvert`, `NotNumericList`, `UnitMismatch`) carrying the data the Go messages print, not the message text.
- **The `result` package is not part of this model.** Its coercions are modelled as strict kind matches: `ToFloat64` accepts only Decimals, `ToInt32` only Integers, and so on. Their errors name the wanted kind and the value's runtime type.
- **`result.New`.** It is modelled as wrapping the Go value into the matching CQL value. Count's Go `int` counter is taken to become a CQL Integer through a Go int-to-int32 conversion (`Wrap32`).
- **The "operand is not a list" error (interpreter/operator_aggregate.go:109-112).** It has no branch in the model. A list value's runtime type is always a list type (`RuntimeType`), so the branch cannot be reached.
- **Floating point.** Decimal and Quantity magnitudes are mathematical reals, so IEEE float64 rounding in `sum += v` is not modelled.
- **The runtime type of a list.** It is computed by the `result` package, which is not part of this model. The model takes it to be `List<T>`, where `T` is the element type the list value carries (`RuntimeType`). `Sum` dispatches on that `T`. If the `result` package instead derived the element type from the elements, well-typed lists would give the same results. Only the kind of error on ill-typed lists could differ.
- **Upstream type checking.** The type checker is what guarantees that a List<Any> holds only nulls. Sum does not inspect such a list, and neither does the model.
- AggregateProperties.CountIsNonNullCount: states the exact count only for lists shorter than 2^31. For longer lists, `EvalCount` and `Count` give the count wrapped into int32.
