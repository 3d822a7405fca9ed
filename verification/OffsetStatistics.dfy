/** Mean, deviation and the outlier filter over a client's offset samples.
    Doubles are modelled as reals; the square root enters as a number `root`
    with `root >= 0` and `root * root` equal to the variance. */
module OffsetStatistics {

  const OUTLIER_THRESHOLD := 2.0

  function Sum(xs: seq<real>): real {
    if xs == [] then 0.0 else Sum(xs[..|xs| - 1]) + xs[|xs| - 1]
  }

  function Square(x: real): real {
    x * x
  }

  function Squares(xs: seq<real>): (r: seq<real>)
    ensures |r| == |xs|
  {
    seq(|xs|, i requires 0 <= i < |xs| => Square(xs[i]))
  }

  function Shift(xs: seq<real>, c: real): (r: seq<real>)
    ensures |r| == |xs|
  {
    seq(|xs|, i requires 0 <= i < |xs| => xs[i] + c)
  }

  function Mean(xs: seq<real>): real
    requires xs != []
  {
    Sum(xs) / (|xs| as real)
  }

  /** Deviations of the samples from their mean. */
  function Deviations(xs: seq<real>): (r: seq<real>)
    requires xs != []
    ensures |r| == |xs|
  {
    Shift(xs, -Mean(xs))
  }

  function Variance(xs: seq<real>): real
    requires xs != []
  {
    Mean(Squares(Deviations(xs)))
  }

  predicate IsRoot(root: real, x: real) {
    root >= 0.0 && root * root == x
  }

  /** The outlier test as written: no deviation at all, or strictly within two deviations. */
  predicate Passes(x: real, mean: real, stddev: real) {
    stddev == 0.0 || AbsReal(x - mean) < OUTLIER_THRESHOLD * stddev
  }

  function AbsReal(x: real): real {
    if x >= 0.0 then x else -x
  }

  /** The same test without the square root. */
  predicate Keeps(x: real, mean: real, variance: real) {
    variance == 0.0 || (x - mean) * (x - mean) < 4.0 * variance
  }

  function Filter(xs: seq<real>, mean: real, variance: real): seq<real> {
    if xs == [] then []
    else
      Filter(xs[..|xs| - 1], mean, variance) +
      if Keeps(xs[|xs| - 1], mean, variance) then [xs[|xs| - 1]] else []
  }

  /** The samples that pass the coded test, in order. */
  function CopyIfPassing(xs: seq<real>, mean: real, stddev: real): seq<real> {
    if xs == [] then []
    else
      CopyIfPassing(xs[..|xs| - 1], mean, stddev) +
      if Passes(xs[|xs| - 1], mean, stddev) then [xs[|xs| - 1]] else []
  }

  /** What is left of a non-empty sample list after the filter. */
  function Cleaned(xs: seq<real>): seq<real>
    requires xs != []
  {
    Filter(xs, Mean(xs), Variance(xs))
  }

  // ----- The rootless test is the coded one -----

  lemma PassesIsKeeps(x: real, mean: real, stddev: real, variance: real)
    requires IsRoot(stddev, variance)
    ensures Passes(x, mean, stddev) <==> Keeps(x, mean, variance)
  {
    var d := AbsReal(x - mean);
    var limit := OUTLIER_THRESHOLD * stddev;
    SquareOrder(d, limit);
    assert d * d == (x - mean) * (x - mean);
    assert limit * limit == 4.0 * variance;
    SquareOrder(0.0, stddev);
    assert variance == stddev * stddev;
  }

  lemma {:induction false} CopyIfPassingIsFilter(xs: seq<real>, mean: real, stddev: real, variance: real)
    requires IsRoot(stddev, variance)
    ensures CopyIfPassing(xs, mean, stddev) == Filter(xs, mean, variance)
  {
    if xs != [] {
      CopyIfPassingIsFilter(xs[..|xs| - 1], mean, stddev, variance);
      PassesIsKeeps(xs[|xs| - 1], mean, stddev, variance);
    }
  }

  lemma SquareOrder(a: real, b: real)
    requires a >= 0.0 && b >= 0.0
    ensures a < b <==> a * a < b * b
  {
    assert b * b - a * a == (b - a) * (b + a);
    if a < b {
      ProductPositive(b - a, b + a);
    } else {
      ProductNonNegative(a - b, b + a);
    }
  }

  lemma ProductPositive(a: real, b: real)
    requires a > 0.0 && b > 0.0
    ensures a * b > 0.0
  {
  }

  lemma ProductNonNegative(a: real, b: real)
    requires a >= 0.0 && b >= 0.0
    ensures a * b >= 0.0
  {
  }

  // ----- Sums -----

  lemma {:induction false} SumShift(xs: seq<real>, c: real)
    ensures Sum(Shift(xs, c)) == Sum(xs) + c * (|xs| as real)
  {
    if xs != [] {
      var front := xs[..|xs| - 1];
      SumShift(front, c);
      assert Shift(xs, c)[..|xs| - 1] == Shift(front, c);
      assert c * (|xs| as real) == c * (|front| as real) + c;
    }
  }

  lemma SumDeviations(xs: seq<real>)
    requires xs != []
    ensures Sum(Deviations(xs)) == 0.0
  {
    SumShift(xs, -Mean(xs));
    assert Mean(xs) * (|xs| as real) == Sum(xs);
  }

  lemma {:induction false} SquaresNonNegative(xs: seq<real>)
    ensures Sum(Squares(xs)) >= 0.0
  {
    if xs != [] {
      SquaresNonNegative(xs[..|xs| - 1]);
      assert Squares(xs)[..|xs| - 1] == Squares(xs[..|xs| - 1]);
    }
  }

  lemma VarianceNonNegative(xs: seq<real>)
    requires xs != []
    ensures Variance(xs) >= 0.0
    ensures Variance(xs) * (|xs| as real) == Sum(Squares(Deviations(xs)))
  {
    SquaresNonNegative(Deviations(xs));
    hide Sum, Squares, Deviations;
  }

  /** Cauchy's inequality against the constant vector. */
  lemma {:induction false} Cauchy(xs: seq<real>)
    ensures Sum(xs) * Sum(xs) <= (|xs| as real) * Sum(Squares(xs))
  {
    if xs != [] {
      var front, x := xs[..|xs| - 1], xs[|xs| - 1];
      Cauchy(front);
      assert Squares(xs)[..|xs| - 1] == Squares(front);
      CauchyStep(Sum(front), x, |front| as real, Sum(Squares(front)));
      if front == [] {
        assert Sum(front) == 0.0;
      }
    }
  }

  lemma CauchyStep(s: real, x: real, n: real, q: real)
    requires n >= 1.0 || (n == 0.0 && s == 0.0)
    requires s * s <= n * q && q >= 0.0
    ensures (s + x) * (s + x) <= (n + 1.0) * (q + x * x)
  {
    assert (s + x) * (s + x) == s * s + 2.0 * s * x + x * x;
    assert (n + 1.0) * (q + x * x) == n * q + q + n * (x * x) + x * x;
    if n >= 1.0 {
      var d := s - n * x;
      assert d * d >= 0.0;
      assert d * d == s * s - 2.0 * n * s * x + n * n * x * x;
      assert n * (2.0 * s * x) <= n * (q + n * x * x);
      assert 2.0 * s * x <= q + n * x * x;
    }
  }

  lemma {:induction false} SumConcat(xs: seq<real>, ys: seq<real>)
    ensures Sum(xs + ys) == Sum(xs) + Sum(ys)
  {
    if ys == [] {
      assert xs + ys == xs;
    } else {
      var front := ys[..|ys| - 1];
      SumConcat(xs, front);
      assert (xs + ys)[..|xs + ys| - 1] == xs + front;
    }
  }

  lemma {:induction false} SumBetween(xs: seq<real>, low: real, high: real)
    requires forall i :: 0 <= i < |xs| ==> low <= xs[i] <= high
    ensures low * (|xs| as real) <= Sum(xs) <= high * (|xs| as real)
  {
    if xs != [] {
      SumBetween(xs[..|xs| - 1], low, high);
    }
  }

  lemma {:induction false} SumStrictlyBetween(xs: seq<real>, low: real, high: real)
    requires xs != [] && forall i :: 0 <= i < |xs| ==> low < xs[i] < high
    ensures low * (|xs| as real) < Sum(xs) < high * (|xs| as real)
  {
    var front, x := xs[..|xs| - 1], xs[|xs| - 1];
    assert low < x < high;
    if front == [] {
      assert |xs| == 1 && Sum(front) == 0.0 && Sum(xs) == x;
      assert low * 1.0 == low && high * 1.0 == high;
    } else {
      SumStrictlyBetween(front, low, high);
      assert low * (|xs| as real) == low * (|front| as real) + low;
      assert high * (|xs| as real) == high * (|front| as real) + high;
    }
  }

  /** A mean is the product cancelled: a helper for every comparison with a mean. */
  lemma MeanTimesLength(xs: seq<real>)
    requires xs != []
    ensures Mean(xs) * (|xs| as real) == Sum(xs)
  {
  }

  lemma CancelLess(a: real, b: real, n: real)
    requires n > 0.0
    ensures a * n < b * n <==> a < b
  {
    if a < b {
      ProductPositive(b - a, n);
    } else {
      ProductNonNegative(a - b, n);
    }
  }

  lemma MeanBetween(xs: seq<real>, low: real, high: real)
    requires xs != []
    requires forall i :: 0 <= i < |xs| ==> low <= xs[i] <= high
    ensures low <= Mean(xs) <= high
  {
    SumBetween(xs, low, high);
    MeanTimesLength(xs);
    CancelLess(Mean(xs), low, |xs| as real);
    CancelLess(high, Mean(xs), |xs| as real);
  }

  lemma MeanStrictlyBetween(xs: seq<real>, low: real, high: real)
    requires xs != []
    requires forall i :: 0 <= i < |xs| ==> low < xs[i] < high
    ensures low < Mean(xs) < high
  {
    SumStrictlyBetween(xs, low, high);
    MeanTimesLength(xs);
    CancelLess(low, Mean(xs), |xs| as real);
    CancelLess(Mean(xs), high, |xs| as real);
  }

  // ----- The filter -----

  lemma {:induction false} FilterSound(xs: seq<real>, mean: real, variance: real)
    ensures forall x :: x in Filter(xs, mean, variance) <==> x in xs && Keeps(x, mean, variance)
    ensures |Filter(xs, mean, variance)| <= |xs|
  {
    if xs != [] {
      FilterSound(xs[..|xs| - 1], mean, variance);
      assert xs == xs[..|xs| - 1] + [xs[|xs| - 1]];
    }
  }

  lemma {:induction false} FilterKeepingAll(xs: seq<real>, mean: real, variance: real)
    requires forall i :: 0 <= i < |xs| ==> Keeps(xs[i], mean, variance)
    ensures Filter(xs, mean, variance) == xs
  {
    if xs != [] {
      FilterKeepingAll(xs[..|xs| - 1], mean, variance);
    }
  }

  lemma SumOfSquaresStep(xs: seq<real>, c: real)
    requires xs != []
    ensures var front, x := xs[..|xs| - 1], xs[|xs| - 1];
            Sum(Squares(Shift(xs, c))) == Sum(Squares(Shift(front, c))) + Square(x + c)
  {
    assert Squares(Shift(xs, c))[..|xs| - 1] == Squares(Shift(xs[..|xs| - 1], c));
  }

  /** Four variances for each of `count` samples. */
  function FourVariances(variance: real, count: int): real {
    4.0 * variance * (count as real)
  }

  /** Every discarded sample contributes at least four variances to the sum of squares. */
  lemma {:induction false} DiscardedWeigh(xs: seq<real>, mean: real, variance: real)
    requires variance > 0.0
    ensures FourVariances(variance, |xs| - |Filter(xs, mean, variance)|) <= Sum(Squares(Shift(xs, -mean)))
  {
    if xs != [] {
      var front, x := xs[..|xs| - 1], xs[|xs| - 1];
      DiscardedWeigh(front, mean, variance);
      SumOfSquaresStep(xs, -mean);
      FilterStep(xs, mean, variance);
      hide Sum, Squares, Shift, Filter, Square, FourVariances, Keeps;
      var before := |front| - |Filter(front, mean, variance)|;
      WeighOneMore(x, mean, variance, before, Sum(Squares(Shift(front, -mean))));
    }
  }

  lemma FilterStep(xs: seq<real>, mean: real, variance: real)
    requires xs != []
    ensures |Filter(xs, mean, variance)| ==
            |Filter(xs[..|xs| - 1], mean, variance)| + if Keeps(xs[|xs| - 1], mean, variance) then 1 else 0
  {
  }

  lemma WeighOneMore(x: real, mean: real, variance: real, before: int, sum: real)
    requires variance > 0.0 && FourVariances(variance, before) <= sum
    ensures FourVariances(variance, if Keeps(x, mean, variance) then before else before + 1) <= sum + Square(x + -mean)
  {
    var d := x - mean;
    assert Square(x + -mean) == d * d >= 0.0;
    assert FourVariances(variance, before + 1) == FourVariances(variance, before) + 4.0 * variance;
  }

  /** Chebyshev's inequality: at most a quarter of any non-empty sample list is discarded,
      so the mean of what is left is always defined. */
  lemma FilterKeepsThreeQuarters(xs: seq<real>)
    requires xs != []
    ensures 4 * (|xs| - |Cleaned(xs)|) <= |xs|
    ensures Cleaned(xs) != []
  {
    var mean, variance := Mean(xs), Variance(xs);
    VarianceNonNegative(xs);
    SumSquaredDeviations(xs);
    hide Sum, Squares, Shift, Mean, Variance, Filter, Keeps, FourVariances;
    if variance == 0.0 {
      NoDeviationKeepsAll(xs, mean);
      FilterKeepingAll(xs, mean, variance);
    } else {
      DiscardedWeigh(xs, mean, variance);
      QuarterAtMost(|xs|, |xs| - |Filter(xs, mean, variance)|, variance, Sum(Squares(Shift(xs, -mean))));
    }
  }

  lemma SumSquaredDeviations(xs: seq<real>)
    requires xs != []
    ensures Sum(Squares(Shift(xs, -Mean(xs)))) == FourVariances(Variance(xs), |xs|) / 4.0
  {
    VarianceNonNegative(xs);
  }

  lemma NoDeviationKeepsAll(xs: seq<real>, mean: real)
    ensures forall i :: 0 <= i < |xs| ==> Keeps(xs[i], mean, 0.0)
  {
  }

  lemma QuarterAtMost(n: nat, discarded: int, variance: real, sum: real)
    requires n > 0 && variance > 0.0
    requires FourVariances(variance, discarded) <= sum == FourVariances(variance, n) / 4.0
    ensures 4 * discarded <= n && discarded < n
  {
    assert ((4 * discarded) as real) * variance <= (n as real) * variance;
    CancelLess(n as real, (4 * discarded) as real, variance);
  }

  /** Samuelson's inequality: no squared deviation exceeds n - 1 variances. */
  lemma DeviationBound(xs: seq<real>, i: nat)
    requires i < |xs|
    ensures Square(xs[i] - Mean(xs)) <= ((|xs| - 1) as real) * Variance(xs)
  {
    var ds := Deviations(xs);
    SumDeviations(xs);
    MeanTimesLength(Squares(ds));
    hide Sum, Mean, Squares;
    var n, d, s, q := OneAgainstTheRest(ds, i);
    assert d == xs[i] - Mean(xs);
    Samuelson(n, d, s, q, Variance(xs));
  }

  /** Splits a zero-sum list at index i, with Cauchy's inequality for the others. */
  lemma OneAgainstTheRest(ds: seq<real>, i: nat) returns (n: real, d: real, s: real, q: real)
    requires i < |ds| && Sum(ds) == 0.0
    ensures n == |ds| as real && d == ds[i] && s + d == 0.0
    ensures q + Square(d) == Sum(Squares(ds))
    ensures s * s <= (n - 1.0) * q
  {
    hide Sum, Squares, Square;
    var before, after := ds[..i], ds[i + 1..];
    var others := before + after;
    n, d := |ds| as real, ds[i];
    s, q := Sum(others), Sum(Squares(others));
    assert ds == before + [d] + after;
    SumAround(before, d, after);
    SquaresAround(before, d, after);
    SumAround(Squares(before), Square(d), Squares(after));
    Cauchy(others);
    assert |others| as real == n - 1.0;
  }

  lemma SquaresAround(before: seq<real>, d: real, after: seq<real>)
    ensures Squares(before + [d] + after) == Squares(before) + [Square(d)] + Squares(after)
    ensures Squares(before + after) == Squares(before) + Squares(after)
  {
  }

  lemma SumAround(xs: seq<real>, x: real, ys: seq<real>)
    ensures Sum(xs + [x] + ys) == Sum(xs + ys) + x
  {
    SumConcat(xs + [x], ys);
    SumConcat(xs, ys);
    assert (xs + [x])[..|xs|] == xs;
  }

  lemma Samuelson(n: real, d: real, s: real, q: real, variance: real)
    requires n >= 1.0 && s + d == 0.0 && q + d * d == variance * n
    requires s * s <= (n - 1.0) * q
    ensures d * d <= (n - 1.0) * variance
  {
    assert s * s == d * d;
    assert (n - 1.0) * q == (n - 1.0) * (variance * n) - (n - 1.0) * (d * d);
    assert d * d + (n - 1.0) * (d * d) == n * (d * d);
    assert (n - 1.0) * (variance * n) == ((n - 1.0) * variance) * n;
    CancelLess((n - 1.0) * variance, d * d, n);
  }

  /** One sample of value n among n - 1 zeros: mean one, variance n - 1. */
  function Spike(n: nat): (xs: seq<real>)
    requires n > 0
    ensures |xs| == n
  {
    seq(n - 1, i => 0.0) + [n as real]
  }

  lemma {:induction false} SumConstant(n: nat, c: real)
    ensures Sum(seq(n, i => c)) == c * (n as real)
  {
    if n > 0 {
      SumConstant(n - 1, c);
      assert seq(n, i => c)[..n - 1] == seq(n - 1, i => c);
    }
  }

  lemma SpikeMean(n: nat)
    requires n > 0
    ensures Sum(Spike(n)) == n as real && Mean(Spike(n)) == 1.0
  {
    assert Spike(n)[..n - 1] == seq(n - 1, i => 0.0);
    SumConstant(n - 1, 0.0);
    var r := n as real;
    assert Mean(Spike(n)) == r / r;
  }

  lemma SpikeMoments(n: nat)
    requires n > 0
    ensures Mean(Spike(n)) == 1.0
    ensures Variance(Spike(n)) == (n - 1) as real
  {
    SpikeMean(n);
    var e := (n - 1) as real;
    var squares := Squares(Deviations(Spike(n)));
    assert Square(-1.0) == 1.0;
    assert squares[..n - 1] == seq(n - 1, i => 1.0);
    assert squares[n - 1] == Square(e);
    SumConstant(n - 1, 1.0);
    assert Sum(squares) == e + Square(e);
    hide Sum, Squares;
    SpikeVariance(n as real);
  }

  lemma SpikeVariance(r: real)
    requires r > 0.0
    ensures ((r - 1.0) + Square(r - 1.0)) / r == r - 1.0
  {
    var e := r - 1.0;
    assert e + Square(e) == e * r;
    ProductOver(e, r);
  }

  lemma ProductOver(x: real, y: real)
    requires y != 0.0
    ensures (x * y) / y == x
  {
  }

  lemma SpikeIsDropped(top: real)
    requires top >= 5.0
    ensures !Keeps(top, 1.0, top - 1.0)
  {
    ProductNonNegative(top - 1.0, top - 5.0);
    assert (top - 1.0) * (top - 1.0) - 4.0 * (top - 1.0) == (top - 1.0) * (top - 5.0);
  }

  /** The filter leaves every list of length n alone exactly when n is at most four. */
  lemma FilterKeepsAllIffFourOrFewer(n: nat)
    requires n > 0
    ensures (forall xs: seq<real> :: |xs| == n ==> Cleaned(xs) == xs) <==> n <= 4
  {
    if n <= 4 {
      forall xs: seq<real> | |xs| == n
        ensures Cleaned(xs) == xs
      {
        FourOrFewerKeptWhole(xs);
      }
    } else {
      SpikeMoments(n);
      FilterSound(Spike(n), 1.0, (n - 1) as real);
      var top := n as real;
      assert Spike(n)[n - 1] == top;
      SpikeIsDropped(top);
      hide Mean, Variance, Filter, Keeps;
      assert top !in Cleaned(Spike(n));
    }
  }

  lemma FourOrFewerKeptWhole(xs: seq<real>)
    requires 0 < |xs| <= 4
    ensures Cleaned(xs) == xs
  {
    var mean, variance := Mean(xs), Variance(xs);
    VarianceNonNegative(xs);
    forall i | 0 <= i < |xs|
      ensures Keeps(xs[i], mean, variance)
    {
      DeviationBound(xs, i);
      ProductNonNegative((4 - |xs|) as real, variance);
    }
    FilterKeepingAll(xs, mean, variance);
  }

  /** With a non-zero deviation the cleaned mean is strictly within two deviations of the raw mean. */
  lemma CleanedMeanNearMean(xs: seq<real>, stddev: real)
    requires xs != [] && IsRoot(stddev, Variance(xs)) && stddev > 0.0
    ensures Cleaned(xs) != []
    ensures AbsReal(Mean(Cleaned(xs)) - Mean(xs)) < OUTLIER_THRESHOLD * stddev
  {
    var mean, variance := Mean(xs), Variance(xs);
    FilterKeepsThreeQuarters(xs);
    FilterSound(xs, mean, variance);
    forall i | 0 <= i < |Cleaned(xs)|
      ensures mean - 2.0 * stddev < Cleaned(xs)[i] < mean + 2.0 * stddev
    {
      var x := Cleaned(xs)[i];
      assert x in Cleaned(xs);
      PassesIsKeeps(x, mean, stddev, variance);
    }
    MeanStrictlyBetween(Cleaned(xs), mean - 2.0 * stddev, mean + 2.0 * stddev);
  }

  /** The cleaned mean never leaves the range of the samples. */
  lemma CleanedMeanBetween(xs: seq<real>, low: real, high: real)
    requires xs != [] && forall i :: 0 <= i < |xs| ==> low <= xs[i] <= high
    ensures Cleaned(xs) != []
    ensures low <= Mean(Cleaned(xs)) <= high
  {
    FilterKeepsThreeQuarters(xs);
    FilterSound(xs, Mean(xs), Variance(xs));
    forall i | 0 <= i < |Cleaned(xs)|
      ensures low <= Cleaned(xs)[i] <= high
    {
      var x := Cleaned(xs)[i];
      assert x in Filter(xs, Mean(xs), Variance(xs));
      assert x in xs;
    }
    MeanBetween(Cleaned(xs), low, high);
  }

  lemma {:induction false} FilterShift(xs: seq<real>, mean: real, variance: real, c: real)
    ensures Filter(Shift(xs, c), mean + c, variance) == Shift(Filter(xs, mean, variance), c)
  {
    if xs != [] {
      var front, x := xs[..|xs| - 1], xs[|xs| - 1];
      FilterShift(front, mean, variance, c);
      assert Shift(xs, c)[..|xs| - 1] == Shift(front, c);
      assert (x + c) - (mean + c) == x - mean;
    }
  }

  lemma MeanShift(xs: seq<real>, c: real)
    requires xs != []
    ensures Mean(Shift(xs, c)) == Mean(xs) + c
  {
    SumShift(xs, c);
    assert (Sum(xs) + c * (|xs| as real)) / (|xs| as real) == Mean(xs) + c;
  }

  /** Adding a constant to every sample moves the cleaned mean by exactly that constant. */
  lemma CleanedMeanShift(xs: seq<real>, c: real)
    requires xs != []
    ensures Cleaned(xs) != [] && Cleaned(Shift(xs, c)) == Shift(Cleaned(xs), c)
    ensures Mean(Cleaned(Shift(xs, c))) == Mean(Cleaned(xs)) + c
  {
    MeanShift(xs, c);
    assert Deviations(Shift(xs, c)) == Deviations(xs);
    FilterShift(xs, Mean(xs), Variance(xs), c);
    FilterKeepsThreeQuarters(xs);
    MeanShift(Cleaned(xs), c);
  }
}
