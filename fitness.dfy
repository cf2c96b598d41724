/**
 * The two penalty helpers of the optimizer package (fitness.py).
 *
 * Both walk `current` by index, read the matching entry of `initial` and add
 * one term per index to an accumulator that starts at 0.0. Numbers are
 * modelled as `real`, so floating-point rounding is not part of the model.
 */
module Fitness {

  /** The square of one deviation, `diff * diff`; never negative. */
  function Square(d: real): (r: real)
    ensures r >= 0.0
  {
    d * d
  }

  function Abs(d: real): real
  {
    if d < 0.0 then -d else d
  }

  /** True when `current` and `initial` agree at every index of `current`. */
  ghost predicate AgreeOnCurrent(current: seq<real>, initial: seq<real>)
    requires |current| <= |initial|
  {
    forall k :: 0 <= k < |current| ==> current[k] == initial[k]
  }

  /**
   * Sum over i < |current| of (current[i] - initial[i])^2, accumulated in
   * index order: the sum for a prefix, plus the term of its last index.
   */
  function SquaredDeviationSum(current: seq<real>, initial: seq<real>): (r: real)
    requires |current| <= |initial|
    ensures r >= 0.0
  {
    if |current| == 0 then 0.0
    else
      var n := |current| - 1;
      SquaredDeviationSum(current[..n], initial) + Square(current[n] - initial[n])
  }

  /** Sum over i < |current| of |current[i] - initial[i]|, in index order. */
  function AbsoluteDeviationSum(current: seq<real>, initial: seq<real>): (r: real)
    requires |current| <= |initial|
    ensures r >= 0.0
  {
    if |current| == 0 then 0.0
    else
      var n := |current| - 1;
      AbsoluteDeviationSum(current[..n], initial) + Abs(current[n] - initial[n])
  }

  /** `calculate_regularization_penalty`: the L2 regularization penalty. */
  method RegularizationPenalty(current: seq<real>, initial: seq<real>) returns (penalty: real)
    requires |current| <= |initial|
    ensures penalty == SquaredDeviationSum(current, initial)
  {
    penalty := 0.0;
    var i := 0;
    while i < |current|
      invariant 0 <= i <= |current|
      invariant penalty == SquaredDeviationSum(current[..i], initial)
    {
      var diff := current[i] - initial[i];
      penalty := penalty + diff * diff;
      i := i + 1;
      assert current[..i][..i - 1] == current[..i - 1];
    }
    assert current[..i] == current;
  }

  /** `calculate_total_delta`: the sum of absolute deviations. */
  method TotalDelta(current: seq<real>, initial: seq<real>) returns (total: real)
    requires |current| <= |initial|
    ensures total == AbsoluteDeviationSum(current, initial)
  {
    total := 0.0;
    var i := 0;
    while i < |current|
      invariant 0 <= i <= |current|
      invariant total == AbsoluteDeviationSum(current[..i], initial)
    {
      var d := current[i] - initial[i];
      total := total + (if d < 0.0 then -d else d);
      i := i + 1;
      assert current[..i][..i - 1] == current[..i - 1];
    }
    assert current[..i] == current;
  }

  /** The regularization penalty is zero when the lists agree at every index read. */
  lemma {:induction false} SquaredDeviationSumZeroWhenAgree(current: seq<real>, initial: seq<real>)
    requires |current| <= |initial|
    requires AgreeOnCurrent(current, initial)
    ensures SquaredDeviationSum(current, initial) == 0.0
  {
    if |current| > 0 {
      var n := |current| - 1;
      assert AgreeOnCurrent(current[..n], initial);
      SquaredDeviationSumZeroWhenAgree(current[..n], initial);
      assert current[n] - initial[n] == 0.0;
    }
  }

  /** The total delta is zero exactly when the lists agree at every index read. */
  lemma {:induction false} AbsoluteDeviationSumZeroIff(current: seq<real>, initial: seq<real>)
    requires |current| <= |initial|
    ensures AbsoluteDeviationSum(current, initial) == 0.0 <==> AgreeOnCurrent(current, initial)
  {
    if |current| > 0 {
      var n := |current| - 1;
      AbsoluteDeviationSumZeroIff(current[..n], initial);
      if AgreeOnCurrent(current, initial) {
        assert AgreeOnCurrent(current[..n], initial);
      }
      if AgreeOnCurrent(current[..n], initial) && current[n] == initial[n] {
        forall k | 0 <= k < |current| ensures current[k] == initial[k] {
          if k < n { assert current[..n][k] == current[k]; }
        }
      }
    }
  }

  /** Both helpers return 0.0 for an empty `current`, whatever `initial` holds. */
  lemma EmptyCurrentGivesZero(initial: seq<real>)
    ensures SquaredDeviationSum([], initial) == 0.0
    ensures AbsoluteDeviationSum([], initial) == 0.0
  {
  }

  /**
   * Only the first |current| entries of `initial` are read: two `initial`
   * lists that agree there give the same penalty and the same delta.
   */
  lemma {:induction false} OnlyPrefixOfInitialRead(current: seq<real>, initial: seq<real>, initial': seq<real>)
    requires |current| <= |initial| && |current| <= |initial'|
    requires forall k :: 0 <= k < |current| ==> initial[k] == initial'[k]
    ensures SquaredDeviationSum(current, initial) == SquaredDeviationSum(current, initial')
    ensures AbsoluteDeviationSum(current, initial) == AbsoluteDeviationSum(current, initial')
  {
    if |current| > 0 {
      OnlyPrefixOfInitialRead(current[..|current| - 1], initial, initial');
    }
  }

  /** Swapping two equally long lists changes neither result. */
  lemma {:induction false} DeviationSumsSymmetric(a: seq<real>, b: seq<real>)
    requires |a| == |b|
    ensures SquaredDeviationSum(a, b) == SquaredDeviationSum(b, a)
    ensures AbsoluteDeviationSum(a, b) == AbsoluteDeviationSum(b, a)
  {
    if |a| > 0 {
      var n := |a| - 1;
      DeviationSumsSymmetric(a[..n], b[..n]);
      OnlyPrefixOfInitialRead(a[..n], b, b[..n]);
      OnlyPrefixOfInitialRead(b[..n], a, a[..n]);
      assert Square(a[n] - b[n]) == Square(b[n] - a[n]);
    }
  }
}
