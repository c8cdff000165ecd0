/**
 * Fail-fast iteration: apply a step to each element in order and stop at
 * the first element whose step fails. Every loop of the report builder
 * (volume sizes, root-disk presence, root-disk parsing, instance kinds)
 * is an instance of this, together with the running sum of the sizes.
 */
module FailFirst {
  import opened ProjectTypes

  /**
   * The step results of all of xs, or the error of the first element whose
   * step fails. A single element is spelled out; it is what the general case
   * gives for an empty prefix.
   */
  function MapFirstError<T, U, E>(xs: seq<T>, f: T -> Result<U, E>): (r: Result<seq<U>, E>)
    ensures r.Ok? ==> |r.value| == |xs|
    decreases |xs|
  {
    if |xs| == 0 then Ok([])
    else if |xs| == 1 then
      match f(xs[0])
      case Err(e) => Err(e)
      case Ok(y) => Ok([y])
    else
      match MapFirstError(xs[..|xs| - 1], f)
      case Err(e) => Err(e)
      case Ok(init) =>
        match f(xs[|xs| - 1])
        case Err(e) => Err(e)
        case Ok(y) => Ok(init + [y])
  }

  /** Element i is the first element of xs whose step fails. */
  ghost predicate FirstFailure<T, U, E>(xs: seq<T>, f: T -> Result<U, E>, i: int) {
    0 <= i < |xs| && f(xs[i]).Err? && forall j :: 0 <= j < i ==> f(xs[j]).Ok?
  }

  function Sum(s: seq<int>): int
    decreases |s|
  {
    if |s| == 0 then 0 else Sum(s[..|s| - 1]) + s[|s| - 1]
  }

  /** The sum of all step values, or the first step error. */
  function Total<E>(r: Result<seq<int>, E>): Result<int, E> {
    match r
    case Err(e) => Err(e)
    case Ok(s) => Ok(Sum(s))
  }

  /** Summing one more element adds it to the running total. */
  lemma SumSnoc(s: seq<int>, x: int)
    ensures Sum(s + [x]) == Sum(s) + x
  {
    assert (s + [x])[..|s|] == s;
  }

  /** One more element extends the mapped prefix by that element's step, when both succeed. */
  lemma MapFirstErrorSnoc<T, U, E>(xs: seq<T>, f: T -> Result<U, E>, k: nat, init: seq<U>)
    requires k < |xs|
    requires MapFirstError(xs[..k], f) == Ok(init)
    ensures f(xs[k]).Err? ==> MapFirstError(xs[..k + 1], f) == Err(f(xs[k]).error)
    ensures f(xs[k]).Ok? ==> MapFirstError(xs[..k + 1], f) == Ok(init + [f(xs[k]).value])
  {
    assert xs[..k + 1][..k] == xs[..k];
    if k == 0 && f(xs[k]).Ok? {
      assert init + [f(xs[k]).value] == [f(xs[k]).value];
    }
  }

  /** Appending an element whose step succeeds appends its value to the mapped sequence. */
  lemma MapFirstErrorAppend<T, U, E>(xs: seq<T>, x: T, f: T -> Result<U, E>)
    requires MapFirstError(xs, f).Ok? && f(x).Ok?
    ensures MapFirstError(xs + [x], f) == Ok(MapFirstError(xs, f).value + [f(x).value])
  {
    assert (xs + [x])[..|xs|] == xs;
    if |xs| == 0 {
      assert xs + [x] == [x];
      assert MapFirstError(xs, f).value + [f(x).value] == [f(x).value];
    }
  }

  /** Appending an element whose step succeeds adds its value to the total. */
  lemma TotalAppend<T, E>(xs: seq<T>, x: T, f: T -> Result<int, E>, t: int)
    requires Total(MapFirstError(xs, f)) == Ok(t) && f(x).Ok?
    ensures Total(MapFirstError(xs + [x], f)) == Ok(t + f(x).value)
  {
    MapFirstErrorAppend(xs, x, f);
    SumSnoc(MapFirstError(xs, f).value, f(x).value);
  }

  /** A failing prefix decides the whole sequence: later elements are never looked at. */
  lemma {:induction false} MapFirstErrorPrefixFails<T, U, E>(xs: seq<T>, f: T -> Result<U, E>, k: nat)
    requires k <= |xs|
    requires MapFirstError(xs[..k], f).Err?
    ensures MapFirstError(xs, f) == MapFirstError(xs[..k], f)
    decreases |xs| - k
  {
    if k < |xs| {
      assert xs[..k + 1][..k] == xs[..k];
      MapFirstErrorPrefixFails(xs, f, k + 1);
    } else {
      assert xs[..k] == xs;
    }
  }

  /** The mapping succeeds exactly when every step succeeds, and then holds every step's value in order. */
  lemma {:induction false} MapFirstErrorOk<T, U, E>(xs: seq<T>, f: T -> Result<U, E>)
    ensures MapFirstError(xs, f).Ok? <==> forall i :: 0 <= i < |xs| ==> f(xs[i]).Ok?
    ensures MapFirstError(xs, f).Ok? ==>
      forall i :: 0 <= i < |xs| ==> MapFirstError(xs, f).value[i] == f(xs[i]).value
    decreases |xs|
  {
    if |xs| > 0 {
      var init := xs[..|xs| - 1];
      MapFirstErrorOk(init, f);
      assert forall i :: 0 <= i < |init| ==> init[i] == xs[i];
    }
  }

  /** The mapping fails exactly when some step fails, and then with the error of the first failing element. */
  lemma {:induction false} MapFirstErrorFails<T, U, E>(xs: seq<T>, f: T -> Result<U, E>, i: int)
    requires FirstFailure(xs, f, i)
    ensures MapFirstError(xs, f) == Err(f(xs[i]).error)
  {
    var pre := xs[..i];
    assert forall j :: 0 <= j < |pre| ==> f(pre[j]).Ok?;
    MapFirstErrorOk(pre, f);
    MapFirstErrorSnoc(xs, f, i, MapFirstError(pre, f).value);
    MapFirstErrorPrefixFails(xs, f, i + 1);
  }

  /** When the mapping fails, some element is the first failing one. */
  lemma {:induction false} MapFirstErrorHasFirstFailure<T, U, E>(xs: seq<T>, f: T -> Result<U, E>)
    requires MapFirstError(xs, f).Err?
    ensures exists i :: FirstFailure(xs, f, i)
  decreases |xs|
  {
    var init := xs[..|xs| - 1];
    assert forall j :: 0 <= j < |init| ==> init[j] == xs[j];
    if MapFirstError(init, f).Err? {
      MapFirstErrorHasFirstFailure(init, f);
      var i :| FirstFailure(init, f, i);
      assert FirstFailure(xs, f, i);
    } else {
      MapFirstErrorOk(init, f);
      assert FirstFailure(xs, f, |xs| - 1);
    }
  }

  /** A non-empty sequence is its prefix with its last element appended. */
  lemma PrefixSnoc<T>(s: seq<T>)
    requires |s| > 0
    ensures s[..|s| - 1] + [s[|s| - 1]] == s
  {
  }
}
