/** What every aggregate loop does with the elements of its list: it skips the
    null ones, coerces the others to the kind it expects, and stops at the
    first coercion that fails. */
module Elements {
  import opened Values

  /** The non-null elements of `s`, in their order. */
  function NonNulls(s: seq<Value>): (ns: seq<Value>)
    ensures |ns| <= |s|
    ensures forall i :: 0 <= i < |ns| ==> !ns[i].Null?
  {
    if s == [] then []
    else (if s[0].Null? then [] else [s[0]]) + NonNulls(s[1..])
  }

  lemma {:induction false} NonNullsAppend(a: seq<Value>, b: seq<Value>)
    ensures NonNulls(a + b) == NonNulls(a) + NonNulls(b)
  {
    if a == [] {
      assert a + b == b;
    } else {
      assert (a + b)[1..] == a[1..] + b;
      NonNullsAppend(a[1..], b);
    }
  }

  /** No element survives the skipping exactly when every element is null. */
  lemma {:induction false} NonNullsEmpty(s: seq<Value>)
    ensures NonNulls(s) == [] <==> forall i :: 0 <= i < |s| ==> s[i].Null?
  {
    if s != [] {
      NonNullsEmpty(s[1..]);
      assert forall i :: 1 <= i < |s| ==> s[i] == s[1..][i - 1];
    }
  }

  /** The first survivor is one of the elements. */
  lemma {:induction false} FirstPresentIsElement(s: seq<Value>)
    requires NonNulls(s) != []
    ensures exists j :: 0 <= j < |s| && s[j] == NonNulls(s)[0]
  {
    if s[0].Null? {
      FirstPresentIsElement(s[1..]);
      var j :| 0 <= j < |s[1..]| && s[1..][j] == NonNulls(s[1..])[0];
      assert s[j + 1] == NonNulls(s)[0];
    }
  }

  /** Every element survives exactly when none is null. */
  lemma {:induction false} NonNullsAll(s: seq<Value>)
    ensures |NonNulls(s)| == |s| <==> forall i :: 0 <= i < |s| ==> !s[i].Null?
  {
    if s != [] {
      NonNullsAll(s[1..]);
      assert forall i :: 1 <= i < |s| ==> s[i] == s[1..][i - 1];
    }
  }

  /** Skipping keeps each non-null value exactly as often as it occurs, and no null. */
  lemma {:induction false} NonNullsMultiset(s: seq<Value>, v: Value)
    ensures multiset(NonNulls(s))[v] == if v.Null? then 0 else multiset(s)[v]
  {
    if s != [] {
      NonNullsMultiset(s[1..], v);
      assert s == [s[0]] + s[1..];
      assert multiset(s) == multiset([s[0]]) + multiset(s[1..]);
    }
  }

  /** The first survivor is the first non-null element. */
  lemma FirstNonNull(s: seq<Value>, j: nat)
    requires j < |s| && !s[j].Null?
    requires forall i :: 0 <= i < j ==> s[i].Null?
    ensures NonNulls(s) != [] && NonNulls(s)[0] == s[j]
  {
    assert s == s[..j] + s[j..];
    assert s[j..] == [s[j]] + s[j + 1..];
    NonNullsAppend(s[..j], s[j..]);
    NonNullsEmpty(s[..j]);
  }

  /** The error of the first non-null element that `coerce` rejects, if any. */
  function FirstError<T>(s: seq<Value>, coerce: Value -> Result<T>): Option<Error>
  {
    if s == [] then None
    else if !s[0].Null? && coerce(s[0]).Err? then Some(coerce(s[0]).error)
    else FirstError(s[1..], coerce)
  }

  lemma {:induction false} FirstErrorAppend<T>(a: seq<Value>, b: seq<Value>, coerce: Value -> Result<T>)
    ensures FirstError(a + b, coerce)
         == if FirstError(a, coerce).Some? then FirstError(a, coerce) else FirstError(b, coerce)
  {
    if a == [] {
      assert a + b == b;
    } else {
      assert (a + b)[1..] == a[1..] + b;
      FirstErrorAppend(a[1..], b, coerce);
    }
  }

  /** There is no error exactly when every non-null element coerces. */
  lemma {:induction false} FirstErrorNone<T>(s: seq<Value>, coerce: Value -> Result<T>)
    ensures FirstError(s, coerce) == None <==> forall i :: 0 <= i < |s| ==> s[i].Null? || coerce(s[i]).Ok?
  {
    if s != [] {
      FirstErrorNone(s[1..], coerce);
      assert forall i :: 1 <= i < |s| ==> s[i] == s[1..][i - 1];
    }
  }

  /** A list with no present element has nothing to reject. */
  lemma {:induction false} NullsHaveNoError<T>(s: seq<Value>, coerce: Value -> Result<T>)
    requires NonNulls(s) == []
    ensures FirstError(s, coerce) == None
  {
    if s != [] {
      NullsHaveNoError(s[1..], coerce);
    }
  }

  /** The error reported is that of the first rejected non-null element. */
  lemma FirstErrorAt<T>(s: seq<Value>, coerce: Value -> Result<T>, k: nat)
    requires k < |s| && !s[k].Null? && coerce(s[k]).Err?
    requires forall j :: 0 <= j < k ==> s[j].Null? || coerce(s[j]).Ok?
    ensures FirstError(s, coerce) == Some(coerce(s[k]).error)
  {
    assert s == s[..k] + s[k..];
    assert s[k..] == [s[k]] + s[k + 1..];
    FirstErrorAppend(s[..k], s[k..], coerce);
    FirstErrorNone(s[..k], coerce);
  }

  /** The exact sums of the magnitudes of the elements of each kind; elements
      of any other kind, nulls included, contribute nothing. */
  function IntegerTotal(s: seq<Value>): int
  {
    if s == [] then 0
    else IntegerTotal(s[..|s| - 1]) + (if s[|s| - 1].Int? then s[|s| - 1].i else 0)
  }

  function LongTotal(s: seq<Value>): int
  {
    if s == [] then 0
    else LongTotal(s[..|s| - 1]) + (if s[|s| - 1].Long? then s[|s| - 1].l else 0)
  }

  function DecimalTotal(s: seq<Value>): real
  {
    if s == [] then 0.0
    else DecimalTotal(s[..|s| - 1]) + (if s[|s| - 1].Dec? then s[|s| - 1].d else 0.0)
  }

  function QuantityTotal(s: seq<Value>): real
  {
    if s == [] then 0.0
    else QuantityTotal(s[..|s| - 1]) + (if s[|s| - 1].Qty? then s[|s| - 1].q.value else 0.0)
  }

}
