/** The loops over a client's samples: sums, mean and deviation, and the copy of those that pass the filter. */
module SampleMath {
  import opened OffsetStatistics

  ghost predicate IsSquareRoot(sqrt: real -> real) {
    forall x :: x >= 0.0 ==> IsRoot(sqrt(x), x)
  }

  method Accumulate(xs: seq<real>) returns (sum: real)
    ensures sum == Sum(xs)
  {
    sum := 0.0;
    for i := 0 to |xs|
      invariant sum == Sum(xs[..i])
    {
      sum := sum + xs[i];
      assert xs[..i + 1][..i] == xs[..i];
    }
    assert xs[..|xs|] == xs;
  }

  /** The distances from the mean. */
  method Differences(xs: seq<real>, mean: real) returns (diff: seq<real>)
    ensures diff == Shift(xs, -mean)
  {
    diff := [];
    for i := 0 to |xs|
      invariant |diff| == i && forall k :: 0 <= k < i ==> diff[k] == xs[k] + -mean
    {
      diff := diff + [xs[i] - mean];
    }
  }

  /** The inner product of a list with itself. */
  method SquareSum(xs: seq<real>) returns (sum: real)
    ensures sum == Sum(Squares(xs))
  {
    sum := 0.0;
    for i := 0 to |xs|
      invariant sum == Sum(Squares(xs)[..i])
    {
      sum := sum + xs[i] * xs[i];
      assert Squares(xs)[..i + 1][..i] == Squares(xs)[..i];
      assert Squares(xs)[i] == Square(xs[i]);
    }
    assert Squares(xs)[..|xs|] == Squares(xs);
  }

  /** Mean and deviation: the deviation is the one non-negative number whose square is the variance. */
  method CalculateMeanStddev(dq: seq<real>, sqrt: real -> real) returns (mean: real, stddev: real)
    requires dq != [] && IsSquareRoot(sqrt)
    ensures mean == Mean(dq)
    ensures forall x :: IsRoot(x, Variance(dq)) <==> x == stddev
  {
    var sum := Accumulate(dq);
    mean := sum / (|dq| as real);
    var diff := Differences(dq, mean);
    var sqSum := SquareSum(diff);
    VarianceNonNegative(dq);
    stddev := sqrt(sqSum / (|dq| as real));
    forall x | IsRoot(x, Variance(dq))
      ensures x == stddev
    {
      SquareOrder(x, stddev);
      SquareOrder(stddev, x);
    }
  }

  /** The samples that pass the test with the deviation, which are those the test on squares keeps. */
  method CopyIf(xs: seq<real>, mean: real, stddev: real, ghost variance: real) returns (kept: seq<real>)
    requires IsRoot(stddev, variance)
    ensures kept == Filter(xs, mean, variance)
  {
    kept := [];
    for i := 0 to |xs|
      invariant kept == CopyIfPassing(xs[..i], mean, stddev)
    {
      assert xs[..i + 1][..i] == xs[..i];
      if Passes(xs[i], mean, stddev) {
        kept := kept + [xs[i]];
      }
    }
    assert xs[..|xs|] == xs;
    CopyIfPassingIsFilter(xs, mean, stddev, variance);
  }
}
