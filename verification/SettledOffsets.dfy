/** The offset a client settles on at a FINAL: what it makes of the samples, outliers and all. */
module SettledOffsets {
  import opened TimePackets
  import opened OffsetStatistics
  import opened ClientModel
  import opened SyncNetwork

  // ----- One outlier among equal samples -----

  lemma {:induction false} SumOfEqual(xs: seq<real>, v: real)
    requires forall i :: 0 <= i < |xs| ==> xs[i] == v
    ensures Sum(xs) == v * (|xs| as real)
  {
    if xs != [] {
      SumOfEqual(xs[..|xs| - 1], v);
    }
  }

  /** All samples but the k-th are v. */
  predicate AllBut(xs: seq<real>, k: nat, v: real) {
    k < |xs| && forall i :: 0 <= i < |xs| && i != k ==> xs[i] == v
  }

  lemma SumAllBut(xs: seq<real>, k: nat, v: real)
    requires AllBut(xs, k, v)
    ensures Sum(xs) == v * (|xs| as real) + (xs[k] - v)
  {
    hide Sum;
    var before, after := xs[..k], xs[k + 1..];
    var others := before + after;
    assert xs == before + [xs[k]] + after;
    assert forall i :: 0 <= i < |others| ==> others[i] == v;
    SumAround(before, xs[k], after);
    SumOfEqual(others, v);
    OneLess(v, |xs|);
  }

  lemma OneLess(v: real, n: nat)
    requires n > 0
    ensures v * ((n - 1) as real) == v * (n as real) - v
  {
  }

  /** With g the n-th part of the outlier's distance, the mean is off by g. */
  lemma OutlierMean(xs: seq<real>, k: nat, v: real, g: real)
    requires AllBut(xs, k, v) && xs[k] - v == g * (|xs| as real)
    ensures Mean(xs) == v + g
  {
    hide Sum;
    var n := |xs| as real;
    SumAllBut(xs, k, v);
    assert v * n + g * n == (v + g) * n;
    QuotientIs(Sum(xs), n, v + g);
  }

  lemma OutlierDeviations(xs: seq<real>, k: nat, v: real, g: real)
    requires AllBut(xs, k, v) && xs[k] - v == g * (|xs| as real) && Mean(xs) == v + g
    ensures var squares := Squares(Deviations(xs));
            AllBut(squares, k, Square(g)) && squares[k] == Square(xs[k] - Mean(xs))
  {
    hide Mean, Sum;
    assert Square(-g) == Square(g);
  }

  /** The variance is n - 1 times its square. */
  lemma OutlierMoments(xs: seq<real>, k: nat, v: real, g: real)
    requires AllBut(xs, k, v) && xs[k] - v == g * (|xs| as real)
    ensures Mean(xs) == v + g
    ensures Variance(xs) == Square(g) * ((|xs| as real) - 1.0)
  {
    hide Sum, Squares, Square, Deviations, AllBut, Mean;
    Within(xs, k, v);
    OutlierMean(xs, k, v, g);
    OutlierDeviations(xs, k, v, g);
    var n, squares := |xs| as real, Squares(Deviations(xs));
    SumAllBut(squares, k, Square(g));
    OutlierAlgebra(g, n, xs[k] - Mean(xs), Square(g), squares[k], Sum(squares));
    MeanIsQuotient(squares);
  }

  lemma Within(xs: seq<real>, k: nat, v: real)
    requires AllBut(xs, k, v)
    ensures k < |xs|
  {
  }

  lemma MeanIsQuotient(xs: seq<real>)
    requires xs != []
    ensures Mean(xs) == Sum(xs) / (|xs| as real)
  {
  }

  lemma QuotientIs(sum: real, n: real, q: real)
    requires n != 0.0 && sum == q * n
    ensures sum / n == q
  {
  }

  lemma SquareIs(e: real)
    ensures Square(e) == e * e
  {
  }

  lemma OutlierAlgebra(g: real, n: real, d: real, s: real, far: real, sum: real)
    requires n != 0.0 && s == Square(g) && d == g * n - g && far == Square(d) && sum == s * n + (far - s)
    ensures sum / n == s * (n - 1.0)
  {
    assert sum == (s * (n - 1.0)) * n;
    QuotientIs(sum, n, s * (n - 1.0));
  }

  lemma PositiveProduct(a: real, b: real, c: real)
    requires a > 0.0 && b > 0.0 && c == a * b
    ensures c > 0.0
  {
  }

  lemma SquareOfNonZero(g: real)
    requires g != 0.0
    ensures Square(g) > 0.0
  {
    if g > 0.0 {
      PositiveProduct(g, g, Square(g));
    } else {
      PositiveProduct(-g, -g, Square(g));
    }
  }

  lemma DropAlgebra(g: real, n: real, s: real, d: real, variance: real)
    requires n >= 5.0 && s > 0.0 && s == g * g && d == g * n - g && variance == s * (n - 1.0)
    ensures variance > 0.0 && d * d >= 4.0 * variance
  {
    var e := n - 1.0;
    PositiveProduct(s, e, variance);
    ProductNonNegative(variance, e - 4.0);
    assert d * d == variance * e;
  }

  lemma FarIsDropped(x: real, mean: real, variance: real)
    requires variance > 0.0 && (x - mean) * (x - mean) >= 4.0 * variance
    ensures !Keeps(x, mean, variance)
  {
  }

  lemma OutlierNotKept(xs: seq<real>, k: nat, v: real)
    requires |xs| >= 5 && AllBut(xs, k, v) && xs[k] != v
    ensures !Keeps(xs[k], Mean(xs), Variance(xs))
  {
    hide Keeps, Mean, Variance, Square;
    var n := |xs| as real;
    var g := (xs[k] - v) / n;
    NthPart(xs[k] - v, n);
    OutlierMoments(xs, k, v, g);
    SquareOfNonZero(g);
    SquareIs(g);
    DropAlgebra(g, n, Square(g), xs[k] - Mean(xs), Variance(xs));
    FarIsDropped(xs[k], Mean(xs), Variance(xs));
  }

  lemma NthPart(x: real, n: real)
    requires n > 0.0
    ensures x == x / n * n && (x != 0.0 ==> x / n != 0.0)
  {
  }

  /** Among five or more samples a single one that differs does not count. */
  lemma OneOutlier(xs: seq<real>, k: nat, v: real)
    requires |xs| >= 5 && AllBut(xs, k, v)
    ensures Cleaned(xs) != [] && Mean(Cleaned(xs)) == v
  {
    hide Keeps, Mean, Variance, Filter;
    FilterKeepsThreeQuarters(xs);
    FilterSound(xs, Mean(xs), Variance(xs));
    if xs[k] != v {
      OutlierNotKept(xs, k, v);
    }
    var kept := Cleaned(xs);
    forall i | 0 <= i < |kept|
      ensures v <= kept[i] <= v
    {
      assert kept[i] in kept;
    }
    MeanBetween(kept, v, v);
  }

  /** At five or more samples of which all but one agree, the client settles on their value. */
  lemma SettledIgnoresOutlier(samples: seq<real>, k: nat, v: int)
    requires |samples| >= 5 && AllBut(samples, k, v as real)
    ensures CleanOffset(samples) == v
  {
    OneOutlier(samples, k, v as real);
    hide Mean, Cleaned;
  }

  // ----- Any samples -----

  /** Of four samples or fewer, or without deviation, all count: the client settles on their mean, truncated. */
  lemma SettledPlainMean(samples: seq<real>)
    requires samples != [] && (|samples| <= 4 || Variance(samples) == 0.0)
    ensures CleanOffset(samples) == Truncate(Mean(samples))
  {
    hide Mean, Variance, Truncate;
    if |samples| <= 4 {
      FourOrFewerKeptWhole(samples);
    } else {
      NoDeviationKeepsAll(samples, Mean(samples));
      FilterKeepingAll(samples, Mean(samples), 0.0);
    }
  }

  predicate AllIntegers(xs: seq<real>) {
    forall i :: 0 <= i < |xs| ==> xs[i] == xs[i].Floor as real
  }

  lemma {:induction false} Extremes(xs: seq<real>) returns (i: nat, j: nat)
    requires xs != []
    ensures i < |xs| && j < |xs| && forall k :: 0 <= k < |xs| ==> xs[i] <= xs[k] <= xs[j]
  {
    i, j := 0, 0;
    if |xs| > 1 {
      var front := xs[..|xs| - 1];
      i, j := Extremes(front);
      assert forall k :: 0 <= k < |front| ==> front[k] == xs[k];
      i := if xs[|xs| - 1] < xs[i] then |xs| - 1 else i;
      j := if xs[|xs| - 1] > xs[j] then |xs| - 1 else j;
    }
  }

  /** The settled offset lies between two kept samples, so it is as near to the mean as they are. */
  lemma SettledNearMean(samples: seq<real>, stddev: real)
    requires samples != [] && AllIntegers(samples) && IsRoot(stddev, Variance(samples)) && stddev > 0.0
    ensures AbsReal(CleanOffset(samples) as real - Mean(samples)) < 2.0 * stddev
    ensures exists i, j :: 0 <= i < |samples| && 0 <= j < |samples|
                           && samples[i] <= CleanOffset(samples) as real <= samples[j]
  {
    var mean, kept := Mean(samples), Cleaned(samples);
    FilterKeepsThreeQuarters(samples);
    FilterSound(samples, mean, Variance(samples));
    var i, j := Extremes(kept);
    assert kept[i] in kept && kept[j] in kept;
    PassesIsKeeps(kept[i], mean, stddev, Variance(samples));
    PassesIsKeeps(kept[j], mean, stddev, Variance(samples));
    hide Mean, Variance, Filter, Keeps;
    MeanBetween(kept, kept[i], kept[j]);
    var low, high := kept[i].Floor, kept[j].Floor;
    assert kept[i] in samples && kept[j] in samples;
    assert low as real == kept[i] && high as real == kept[j];
    TruncateBetween(Mean(kept), low, high);
  }

  /** One for each sample strictly within two deviations of the mean, zero for the others. */
  function Weights(samples: seq<real>, mean: real, stddev: real): (r: seq<real>)
    ensures |r| == |samples|
  {
    seq(|samples|, i requires 0 <= i < |samples| => if AbsReal(samples[i] - mean) < 2.0 * stddev then 1.0 else 0.0)
  }

  function Share(x: real, weight: real): real {
    x * weight
  }

  function Weighted(samples: seq<real>, weights: seq<real>): (r: seq<real>)
    requires |weights| == |samples|
    ensures |r| == |samples|
  {
    seq(|samples|, i requires 0 <= i < |samples| => Share(samples[i], weights[i]))
  }

  lemma WeightsFirst(front: seq<real>, x: real, mean: real, stddev: real)
    ensures var w := if AbsReal(x - mean) < 2.0 * stddev then 1.0 else 0.0;
            Weights(front + [x], mean, stddev) == Weights(front, mean, stddev) + [w]
  {
  }

  lemma WeightedFirst(front: seq<real>, x: real, weights: seq<real>, w: real)
    requires |weights| == |front|
    ensures Weighted(front + [x], weights + [w]) == Weighted(front, weights) + [Share(x, w)]
  {
    hide Share;
  }

  lemma SumLast(xs: seq<real>, x: real)
    ensures Sum(xs + [x]) == Sum(xs) + x
  {
    assert (xs + [x])[..|xs|] == xs;
  }

  lemma FilterLast(front: seq<real>, x: real, mean: real, variance: real)
    ensures Filter(front + [x], mean, variance) ==
            Filter(front, mean, variance) + if Keeps(x, mean, variance) then [x] else []
  {
    assert (front + [x])[..|front|] == front;
  }

  lemma KeepsNear(x: real, mean: real, stddev: real, variance: real)
    requires IsRoot(stddev, variance) && stddev > 0.0
    ensures Keeps(x, mean, variance) <==> AbsReal(x - mean) < 2.0 * stddev
  {
    PassesIsKeeps(x, mean, stddev, variance);
  }

  lemma {:induction false} FilterIsWeighted(xs: seq<real>, mean: real, stddev: real, variance: real)
    requires IsRoot(stddev, variance) && stddev > 0.0
    ensures Sum(Weights(xs, mean, stddev)) == |Filter(xs, mean, variance)| as real
    ensures Sum(Weighted(xs, Weights(xs, mean, stddev))) == Sum(Filter(xs, mean, variance))
  {
    if xs != [] {
      hide Sum, Filter, Keeps, Weights, Weighted, AbsReal, IsRoot;
      var front, x := xs[..|xs| - 1], xs[|xs| - 1];
      assert xs == front + [x];
      FilterIsWeighted(front, mean, stddev, variance);
      KeepsNear(x, mean, stddev, variance);
      FilterLast(front, x, mean, variance);
      var w := if AbsReal(x - mean) < 2.0 * stddev then 1.0 else 0.0;
      WeightsFirst(front, x, mean, stddev);
      WeightedFirst(front, x, Weights(front, mean, stddev), w);
      SumLast(Weights(front, mean, stddev), w);
      SumLast(Weighted(front, Weights(front, mean, stddev)), Share(x, w));
      SumLast(Filter(front, mean, variance), x);
      assert Filter(front, mean, variance) + [] == Filter(front, mean, variance);
    }
  }

  /** The settled offset is the mean of exactly the samples strictly within two deviations, truncated. */
  lemma SettledIsMeanOfNear(samples: seq<real>, stddev: real)
    requires samples != [] && IsRoot(stddev, Variance(samples)) && stddev > 0.0
    ensures var weights := Weights(samples, Mean(samples), stddev);
            Sum(weights) > 0.0 && CleanOffset(samples) == Truncate(Sum(Weighted(samples, weights)) / Sum(weights))
  {
    FilterIsWeighted(samples, Mean(samples), stddev, Variance(samples));
    FilterKeepsThreeQuarters(samples);
    MeanIsQuotient(Cleaned(samples));
    hide Sum, Mean, Variance, Filter, Weights, Weighted;
  }

  // ----- In every run -----

  /** The offsets heard since the last FINAL, in order. */
  function Since(heard: seq<TPacket>): seq<real> {
    if heard == [] || heard[|heard| - 1].tpType == Final then []
    else Since(heard[..|heard| - 1]) + [heard[|heard| - 1].offset as real]
  }

  /** The offsets up to the last one heard, since the FINAL before it. */
  function Batch(heard: seq<TPacket>): seq<real>
    requires heard != []
  {
    Since(heard[..|heard| - 1]) + [heard[|heard| - 1].offset as real]
  }

  /** What a client holds: the offsets since the last FINAL; and it goes by the last offset heard, or settled on
      the batch that a FINAL ended. */
  predicate Remembers(c: ClientState, heard: seq<TPacket>) {
    && c.samples == Since(heard)
    && (heard != [] ==>
          var last := heard[|heard| - 1];
          c.offset == if last.tpType == Final then CleanOffset(Batch(heard)) else last.offset)
  }

  lemma TimesyncRemembered(c: ClientState, heard: seq<TPacket>, tp: TPacket, paStart: real, systemTime: int)
    requires Remembers(c, heard)
    ensures Remembers(OnTimesync(c, tp, paStart, systemTime), Remember(heard, tp))
  {
    hide CleanOffset, Truncate;
    assert (heard + [tp])[..|heard|] == heard;
  }

  lemma StepRemembers(s: System, ev: NetEvent, theta: Clocks, r: System, e: Endpoint)
    requires LeadsTo(s, ev, theta, r) && e in theta && e in s.clients && e in s.heard
    requires Remembers(s.clients[e], s.heard[e])
    ensures e in r.clients && e in r.heard && Remembers(r.clients[e], r.heard[e])
  {
    hide Next, CanHappen, Remembers, OnTimesync, Remember;
    if ev.ClientReceives? {
      ReceivingSets(s, ev, theta, e);
      if e == ev.at {
        TimesyncRemembered(s.clients[e], s.heard[e], ev.tp, ev.paStart, ev.done + theta[e]);
      }
    } else {
      OnlyReceivingSets(s, ev, theta);
    }
  }

  lemma NothingRemembered(s: System, setup: Setup, e: Endpoint)
    requires Starts(s, setup) && e in setup.theta
    ensures e in s.clients && e in s.heard && Remembers(s.clients[e], s.heard[e])
  {
    hide MasterModel.Start;
  }

  /** In every run, on any network, a client's samples are the offsets it has heard since its last FINAL, in
      order, and its offset is the one it settled on then or the last it heard since. */
  lemma {:induction false} RunRemembers(run: seq<System>, evs: seq<NetEvent>, setup: Setup, n: nat, e: Endpoint)
    requires IsNetRun(run, evs, setup) && n <= |evs| && e in setup.theta
    ensures e in run[n].clients && e in run[n].heard && Remembers(run[n].clients[e], run[n].heard[e])
  {
    hide LeadsTo, Starts, Remembers;
    if n == 0 {
      NothingRemembered(run[0], setup, e);
    } else {
      RunRemembers(run, evs, setup, n - 1, e);
      StepRemembers(run[n - 1], evs[n - 1], setup.theta, run[n], e);
    }
  }

  /** The last packet e has heard is a FINAL. */
  predicate JustSettled(s: System, e: Endpoint) {
    e in s.clients && e in s.heard && s.heard[e] != [] && s.heard[e][|s.heard[e]| - 1].tpType == Final
  }

  /** In every run: of five or more offsets heard since the FINAL before, all but one equal to v, a client settles
      on v; in particular on its true offset when all but one exchange had equal delays. */
  lemma RunSettlesOn(run: seq<System>, evs: seq<NetEvent>, setup: Setup, n: nat, e: Endpoint, k: nat, v: int)
    requires IsNetRun(run, evs, setup) && n <= |evs| && e in setup.theta && JustSettled(run[n], e)
    requires var batch := Batch(run[n].heard[e]); |batch| >= 5 && AllBut(batch, k, v as real)
    ensures run[n].clients[e].offset == v
  {
    hide LeadsTo, Starts, CleanOffset, AllBut, Batch, Since;
    RunRemembers(run, evs, setup, n, e);
    SettledIgnoresOutlier(Batch(run[n].heard[e]), k, v);
  }

  lemma {:induction false} SinceIntegers(heard: seq<TPacket>)
    ensures AllIntegers(Since(heard))
    ensures heard != [] ==> AllIntegers(Batch(heard))
  {
    if heard != [] {
      SinceIntegers(heard[..|heard| - 1]);
    }
  }

  /** In every run: a client settles strictly within two deviations of the mean of the offsets heard since the
      FINAL before, and on the truncated mean of those that are. */
  lemma RunSettlesNear(run: seq<System>, evs: seq<NetEvent>, setup: Setup, n: nat, e: Endpoint, stddev: real)
    requires IsNetRun(run, evs, setup) && n <= |evs| && e in setup.theta && JustSettled(run[n], e)
    requires IsRoot(stddev, Variance(Batch(run[n].heard[e]))) && stddev > 0.0
    ensures var batch, offset := Batch(run[n].heard[e]), run[n].clients[e].offset;
            var weights := Weights(batch, Mean(batch), stddev);
            && AbsReal(offset as real - Mean(batch)) < 2.0 * stddev
            && Sum(weights) > 0.0 && offset == Truncate(Sum(Weighted(batch, weights)) / Sum(weights))
  {
    RunRemembers(run, evs, setup, n, e);
    hide IsNetRun, CleanOffset, Since, Sum, Mean, Variance, Weights, Weighted, Truncate;
    var batch := Batch(run[n].heard[e]);
    SinceIntegers(run[n].heard[e]);
    SettledNearMean(batch, stddev);
    SettledIsMeanOfNear(batch, stddev);
  }
}
