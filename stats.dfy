/**
 * Statistics over power histories. The source calls helpers that are not part of
 * this model (AudioUtil.computeAverage, MathUtil.minInArray, MathUtil.maxInArray);
 * they are specified here as the arithmetic mean, the minimum and the maximum.
 */
module Stats {

  /** Sum of a history, accumulated from the front as a reducing loop would. */
  function Sum(s: seq<real>): real
    decreases |s|
  {
    if s == [] then 0.0 else Sum(s[..|s| - 1]) + s[|s| - 1]
  }

  /** Arithmetic mean of a non-empty history (the mean of an empty one is NaN in the source). */
  function ComputeAverage(s: seq<real>): (mean: real)
    requires s != []
    ensures mean * (|s| as real) == Sum(s)
  {
    Sum(s) / (|s| as real)
  }

  /** Largest element of a non-empty history. */
  function MaxInArray(s: seq<real>): (m: real)
    requires s != []
    ensures m in s
    ensures forall i :: 0 <= i < |s| ==> s[i] <= m
    decreases |s|
  {
    if |s| == 1 then s[0]
    else
      var rest := MaxInArray(s[..|s| - 1]);
      if s[|s| - 1] > rest then s[|s| - 1] else rest
  }

  /** Smallest element of a non-empty history. */
  function MinInArray(s: seq<real>): (m: real)
    requires s != []
    ensures m in s
    ensures forall i :: 0 <= i < |s| ==> m <= s[i]
    decreases |s|
  {
    if |s| == 1 then s[0]
    else
      var rest := MinInArray(s[..|s| - 1]);
      if s[|s| - 1] < rest then s[|s| - 1] else rest
  }

  /** A history whose every sample exceeds `floor` sums to more than |s| times `floor`. */
  lemma {:induction false} SumAbove(s: seq<real>, floor: real)
    requires s != []
    requires forall i :: 0 <= i < |s| ==> s[i] > floor
    ensures Sum(s) > (|s| as real) * floor
    decreases |s|
  {
    var init := s[..|s| - 1];
    if init != [] {
      SumAbove(init, floor);
      assert (|s| as real) * floor == (|init| as real) * floor + floor;
    }
  }

  /** The mean of a history whose every sample exceeds `floor` exceeds `floor`. */
  lemma MeanAbove(s: seq<real>, floor: real)
    requires s != []
    requires forall i :: 0 <= i < |s| ==> s[i] > floor
    ensures ComputeAverage(s) > floor
  {
    SumAbove(s, floor);
    var n := |s| as real;
    assert ComputeAverage(s) * n == Sum(s);
  }

  /** A history of |s| equal samples `v` sums to |s| times `v`. */
  lemma {:induction false} SumConstant(s: seq<real>, v: real)
    requires forall i :: 0 <= i < |s| ==> s[i] == v
    ensures Sum(s) == (|s| as real) * v
    decreases |s|
  {
    if s != [] {
      var init := s[..|s| - 1];
      SumConstant(init, v);
      assert (|s| as real) * v == (|init| as real) * v + v;
    }
  }

  /** The mean of a constant, non-empty history is that constant. */
  lemma MeanOfConstant(s: seq<real>, v: real)
    requires s != []
    requires forall i :: 0 <= i < |s| ==> s[i] == v
    ensures ComputeAverage(s) == v
  {
    SumConstant(s, v);
  }
}
