/**
 * The two loop shapes the flattener is built from, as specification functions.
 *
 * `FlatMap` is an outer loop over a top-level array: every element contributes
 * a list of rows, and the lists are appended in order. `MapWith` is an inner
 * loop over a nested array: every element contributes one row that also
 * carries a value of its parent. In both, the first element whose row cannot
 * be built aborts the whole build with that element's error, as an uncaught
 * exception inside the source's loops does.
 */
module RowBuilding {
  import opened Wrappers

  function FlatMap<T, R, E>(xs: seq<T>, f: T -> Result<seq<R>, E>): (r: Result<seq<R>, E>)
    ensures r.Ok? <==> forall i :: 0 <= i < |xs| ==> f(xs[i]).Ok?
    decreases |xs|
  {
    if |xs| == 0 then Ok([])
    else
      match FlatMap(xs[..|xs| - 1], f)
      case Err(e) => Err(e)
      case Ok(front) =>
        match f(xs[|xs| - 1])
        case Err(e) => Err(e)
        case Ok(last) => Ok(front + last)
  }

  function MapWith<P, T, R, E>(p: P, xs: seq<T>, f: (P, T) -> Result<R, E>): (r: Result<seq<R>, E>)
    ensures r.Ok? <==> forall j :: 0 <= j < |xs| ==> f(p, xs[j]).Ok?
    ensures r.Ok? ==> |r.value| == |xs| && forall j :: 0 <= j < |xs| ==> f(p, xs[j]) == Ok(r.value[j])
    decreases |xs|
  {
    if |xs| == 0 then Ok([])
    else
      match MapWith(p, xs[..|xs| - 1], f)
      case Err(e) => Err(e)
      case Ok(front) =>
        match f(p, xs[|xs| - 1])
        case Err(e) => Err(e)
        case Ok(last) => Ok(front + [last])
  }

  /** Sum of `g` over the elements of `xs`. */
  function SumOf<T>(xs: seq<T>, g: T -> nat): nat
    decreases |xs|
  {
    if |xs| == 0 then 0 else SumOf(xs[..|xs| - 1], g) + g(xs[|xs| - 1])
  }

  /** Once element `i` fails after a successful prefix, the whole build fails with its error. */
  lemma {:induction false} FlatMapStopsAt<T, R, E>(xs: seq<T>, i: nat, f: T -> Result<seq<R>, E>)
    requires i < |xs| && FlatMap(xs[..i], f).Ok? && f(xs[i]).Err?
    ensures FlatMap(xs, f) == Err(f(xs[i]).error)
    decreases |xs|
  {
    if |xs| == i + 1 {
      assert xs[..|xs| - 1] == xs[..i];
    } else {
      var front := xs[..|xs| - 1];
      assert front[..i] == xs[..i];
      FlatMapStopsAt(front, i, f);
    }
  }

  lemma {:induction false} MapWithStopsAt<P, T, R, E>(p: P, xs: seq<T>, j: nat, f: (P, T) -> Result<R, E>)
    requires j < |xs| && MapWith(p, xs[..j], f).Ok? && f(p, xs[j]).Err?
    ensures MapWith(p, xs, f) == Err(f(p, xs[j]).error)
    decreases |xs|
  {
    if |xs| == j + 1 {
      assert xs[..|xs| - 1] == xs[..j];
    } else {
      var front := xs[..|xs| - 1];
      assert front[..j] == xs[..j];
      MapWithStopsAt(p, front, j, f);
    }
  }

  /** Element `i` fails with `e` and every element before it succeeds. */
  ghost predicate FailsFirstAt<T, R, E>(xs: seq<T>, f: T -> Result<seq<R>, E>, i: int, e: E) {
    && 0 <= i < |xs|
    && f(xs[i]) == Err(e)
    && forall k :: 0 <= k < i ==> f(xs[k]).Ok?
  }

  /** A failed build reports the error of the first element that fails. */
  lemma {:induction false} FlatMapFirstError<T, R, E>(xs: seq<T>, f: T -> Result<seq<R>, E>)
    requires FlatMap(xs, f).Err?
    ensures exists i :: FailsFirstAt(xs, f, i, FlatMap(xs, f).error)
    decreases |xs|
  {
    var front := xs[..|xs| - 1];
    var e := FlatMap(xs, f).error;
    if FlatMap(front, f).Err? {
      assert FlatMap(front, f).error == e;
      FlatMapFirstError(front, f);
      var i :| FailsFirstAt(front, f, i, e);
      assert forall k :: 0 <= k <= i ==> xs[k] == front[k];
      assert FailsFirstAt(xs, f, i, e);
    } else {
      var i := |xs| - 1;
      assert forall k :: 0 <= k < i ==> xs[k] == front[k];
      assert FailsFirstAt(xs, f, i, e);
    }
  }

  /** The rows of a successful build number the sum of what each element contributes. */
  lemma {:induction false} FlatMapLength<T, R, E>(xs: seq<T>, f: T -> Result<seq<R>, E>, g: T -> nat)
    requires forall x :: f(x).Ok? ==> |f(x).value| == g(x)
    requires FlatMap(xs, f).Ok?
    ensures |FlatMap(xs, f).value| == SumOf(xs, g)
    decreases |xs|
  {
    if |xs| > 0 {
      FlatMapLength(xs[..|xs| - 1], f, g);
    }
  }

  /** Every row of a successful build was contributed by some element. */
  lemma {:induction false} FlatMapMember<T, R, E>(xs: seq<T>, f: T -> Result<seq<R>, E>, row: R)
    requires FlatMap(xs, f).Ok? && row in FlatMap(xs, f).value
    ensures exists i :: 0 <= i < |xs| && row in f(xs[i]).value
    decreases |xs|
  {
    var front := xs[..|xs| - 1];
    if row in FlatMap(front, f).value {
      FlatMapMember(front, f, row);
      var i :| 0 <= i < |front| && row in f(front[i]).value;
      assert xs[i] == front[i];
    } else {
      assert row in f(xs[|xs| - 1]).value;
    }
  }

  /** Order is preserved: the rows of the first `k` elements precede those of the rest. */
  lemma {:induction false} FlatMapSplit<T, R, E>(xs: seq<T>, k: nat, f: T -> Result<seq<R>, E>)
    requires k <= |xs| && FlatMap(xs, f).Ok?
    ensures FlatMap(xs[..k], f).Ok? && FlatMap(xs[k..], f).Ok?
    ensures FlatMap(xs, f).value == FlatMap(xs[..k], f).value + FlatMap(xs[k..], f).value
    decreases |xs|
  {
    assert forall i :: 0 <= i < k ==> xs[..k][i] == xs[i];
    assert forall i :: 0 <= i < |xs| - k ==> xs[k..][i] == xs[k + i];
    if k == |xs| {
      assert xs[..k] == xs;
    } else {
      var front := xs[..|xs| - 1];
      FlatMapSplit(front, k, f);
      assert front[..k] == xs[..k];
      assert xs[k..][..|xs[k..]| - 1] == front[k..];
    }
  }

  /** When every element contributes exactly one row, the rows line up with the elements. */
  lemma {:induction false} FlatMapSingletons<T, R, E>(xs: seq<T>, f: T -> Result<seq<R>, E>)
    requires forall x :: f(x).Ok? ==> |f(x).value| == 1
    requires FlatMap(xs, f).Ok?
    ensures |FlatMap(xs, f).value| == |xs|
    ensures forall i :: 0 <= i < |xs| ==> f(xs[i]) == Ok([FlatMap(xs, f).value[i]])
    decreases |xs|
  {
    if |xs| > 0 {
      var front := xs[..|xs| - 1];
      FlatMapSingletons(front, f);
      var last := f(xs[|xs| - 1]).value;
      assert FlatMap(xs, f).value == FlatMap(front, f).value + last;
      assert last == [last[0]];
      forall i | 0 <= i < |xs|
        ensures f(xs[i]) == Ok([FlatMap(xs, f).value[i]])
      {
        if i < |xs| - 1 {
          assert xs[i] == front[i];
        }
      }
    }
  }
}
