/** Centre lines and control limits of the three chart families of
    `SPCCharts`: X-bar/R for subgrouped measurements, I-MR for individual
    measurements and p for proportions defective. Plotting is not modelled;
    each chart is the series it would plot together with its limits. */
module ControlLimits {
  import opened Stats

  /** Centre line, upper control limit and lower control limit of one monitored statistic. */
  datatype Limits = Limits(center: real, ucl: real, lcl: real)

  // X-bar/R constants. They are the row n = 5 of the usual table and are used
  // whatever subgroup size the caller declares.
  const A2: real := 0.577
  const D3: real := 0.0
  const D4: real := 2.114
  /** The subgroup size the X-bar/R constants belong to. */
  const TableSubgroupSize: int := 5

  // I-MR constants: 3/d2 and D4 for moving ranges of two consecutive values.
  const IFactor: real := 2.66
  const MRFactor: real := 3.27

  // ---------------------------------------------------------------------------
  // X-bar/R chart
  // ---------------------------------------------------------------------------

  /** Every subgroup (a row of the data) holds at least one measurement. */
  predicate NonEmptyGroups(groups: seq<seq<real>>)
  {
    forall i :: 0 <= i < |groups| ==> |groups[i]| > 0
  }

  /** Range of one subgroup, its maximum minus its minimum: the largest
      difference between two of its measurements. */
  function SubgroupRange(g: seq<real>): (r: real)
    requires |g| > 0
    ensures 0.0 <= r
    ensures forall i, j :: 0 <= i < |g| && 0 <= j < |g| ==> g[i] - g[j] <= r
    ensures exists i, j :: 0 <= i < |g| && 0 <= j < |g| && g[i] - g[j] == r
  {
    var hi, lo := Max(g), Min(g);
    var i :| 0 <= i < |g| && g[i] == hi;
    var j :| 0 <= j < |g| && g[j] == lo;
    assert g[i] - g[j] == hi - lo;
    hi - lo
  }

  /** The per-subgroup means (the X-bar series). */
  function SubgroupMeans(groups: seq<seq<real>>): (xBar: seq<real>)
    requires NonEmptyGroups(groups)
    ensures |xBar| == |groups|
    ensures forall i :: 0 <= i < |groups| ==> xBar[i] == Mean(groups[i])
  {
    seq(|groups|, i requires 0 <= i < |groups| => Mean(groups[i]))
  }

  /** The per-subgroup ranges (the R series). */
  function SubgroupRanges(groups: seq<seq<real>>): (ranges: seq<real>)
    requires NonEmptyGroups(groups)
    ensures |ranges| == |groups|
    ensures forall i :: 0 <= i < |groups| ==> ranges[i] == SubgroupRange(groups[i])
  {
    seq(|groups|, i requires 0 <= i < |groups| => SubgroupRange(groups[i]))
  }

  /** What `x_r_chart` plots: both series, both sets of limits, and whether the
      declared subgroup size differs from the one the constants belong to. */
  datatype XRChart = XRChart(xBar: seq<real>, ranges: seq<real>,
                             xLimits: Limits, rLimits: Limits, sizeWarning: bool)

  function XRChartOf(groups: seq<seq<real>>, subgroupSize: int): (c: XRChart)
    requires |groups| > 0 && NonEmptyGroups(groups)
    ensures c.xBar == SubgroupMeans(groups) && c.ranges == SubgroupRanges(groups)
    ensures c.xLimits.center == Mean(c.xBar) && c.rLimits.center == Mean(c.ranges)
    ensures 0.0 <= c.rLimits.center
    ensures c.xLimits.ucl - c.xLimits.center == A2 * c.rLimits.center
    ensures c.xLimits.center - c.xLimits.lcl == A2 * c.rLimits.center
    ensures c.xLimits.lcl <= c.xLimits.center <= c.xLimits.ucl
    ensures c.rLimits.ucl == D4 * c.rLimits.center
    ensures c.rLimits.lcl == 0.0 <= c.rLimits.center <= c.rLimits.ucl
    ensures c.sizeWarning <==> subgroupSize != TableSubgroupSize
  {
    var xBar := SubgroupMeans(groups);
    var ranges := SubgroupRanges(groups);
    var grandMean := Mean(xBar);
    var rBar := Mean(ranges);
    MeanNonNegative(ranges);
    XRChart(xBar, ranges,
            Limits(grandMean, grandMean + A2 * rBar, grandMean - A2 * rBar),
            Limits(rBar, D4 * rBar, D3 * rBar),
            subgroupSize != TableSubgroupSize)
  }

  /** The declared subgroup size changes only the warning, never a limit. */
  lemma XRIgnoresDeclaredSize(groups: seq<seq<real>>, size1: int, size2: int)
    requires |groups| > 0 && NonEmptyGroups(groups)
    ensures XRChartOf(groups, size1).xBar == XRChartOf(groups, size2).xBar
    ensures XRChartOf(groups, size1).ranges == XRChartOf(groups, size2).ranges
    ensures XRChartOf(groups, size1).xLimits == XRChartOf(groups, size2).xLimits
    ensures XRChartOf(groups, size1).rLimits == XRChartOf(groups, size2).rLimits
  {
  }

  lemma {:induction false} SumOfSubgroupMeans(groups: seq<seq<real>>, n: nat)
    requires n > 0
    requires forall i :: 0 <= i < |groups| ==> |groups[i]| == n
    ensures Sum(SubgroupMeans(groups)) * (n as real) == Sum(Flatten(groups))
  {
    if |groups| > 0 {
      var xBar, rest := SubgroupMeans(groups), SubgroupMeans(groups[1..]);
      SumOfSubgroupMeans(groups[1..], n);
      assert xBar[1..] == rest;
      assert Sum(xBar) == xBar[0] + Sum(rest);
      MeanTimesCount(groups[0]);
      SumAppend(groups[0], Flatten(groups[1..]));
      Distribute(xBar[0], Sum(rest), n as real);
    }
  }

  /** With subgroups of one common size the mean of the subgroup means is the
      mean of all measurements. */
  lemma MeanOfSubgroupMeans(groups: seq<seq<real>>, n: nat)
    requires |groups| > 0 && n > 0
    requires forall i :: 0 <= i < |groups| ==> |groups[i]| == n
    ensures Mean(SubgroupMeans(groups)) == Mean(Flatten(groups))
  {
    var xBar := SubgroupMeans(groups);
    var flat := Flatten(groups);
    var x, y, k, m := Sum(xBar), Sum(flat), |groups| as real, n as real;
    SumOfSubgroupMeans(groups, n);
    FlattenLength(groups, n);
    CastMul(|groups|, n);
    MeanScaled(xBar, flat, x, y, m);
  }

  /** So the X-bar centre line, a mean of subgroup means, is the mean of all
      measurements when the subgroups have one common size. */
  lemma GrandMeanIsOverallMean(groups: seq<seq<real>>, n: nat, subgroupSize: int)
    requires |groups| > 0 && n > 0
    requires forall i :: 0 <= i < |groups| ==> |groups[i]| == n
    ensures XRChartOf(groups, subgroupSize).xLimits.center == Mean(Flatten(groups))
  {
    MeanOfSubgroupMeans(groups, n);
  }

  // ---------------------------------------------------------------------------
  // I-MR chart
  // ---------------------------------------------------------------------------

  /** Absolute differences of consecutive values; the first value has no
      predecessor and contributes no entry. */
  function MovingRanges(xs: seq<real>): (mr: seq<real>)
    ensures |mr| == if |xs| == 0 then 0 else |xs| - 1
    ensures forall i :: 0 <= i < |mr| ==>
              0.0 <= mr[i] && (mr[i] == xs[i + 1] - xs[i] || mr[i] == xs[i] - xs[i + 1])
  {
    if |xs| == 0 then []
    else seq(|xs| - 1, i requires 0 <= i < |xs| - 1 => Abs(xs[i + 1] - xs[i]))
  }

  /** A moving range is the range of the two-value subgroup it spans. */
  lemma MovingRangeIsPairRange(xs: seq<real>, i: nat)
    requires i + 1 < |xs|
    ensures MovingRanges(xs)[i] == SubgroupRange([xs[i], xs[i + 1]])
  {
    var g := [xs[i], xs[i + 1]];
    assert g[1..] == [xs[i + 1]];
  }

  /** What `i_mr_chart` plots: the values, their moving ranges and both sets of limits. */
  datatype IMRChart = IMRChart(values: seq<real>, movingRanges: seq<real>,
                               iLimits: Limits, mrLimits: Limits)

  function IMRChartOf(xs: seq<real>): (c: IMRChart)
    requires |xs| >= 2
    ensures c.values == xs && c.movingRanges == MovingRanges(xs)
    ensures c.iLimits.center == Mean(xs) && c.mrLimits.center == Mean(c.movingRanges)
    ensures 0.0 <= c.mrLimits.center
    ensures c.iLimits.ucl - c.iLimits.center == IFactor * c.mrLimits.center
    ensures c.iLimits.center - c.iLimits.lcl == IFactor * c.mrLimits.center
    ensures c.iLimits.lcl <= c.iLimits.center <= c.iLimits.ucl
    ensures c.mrLimits.ucl == MRFactor * c.mrLimits.center
    ensures c.mrLimits.lcl == 0.0 <= c.mrLimits.center <= c.mrLimits.ucl
  {
    var mr := MovingRanges(xs);
    var mean := Mean(xs);
    var mrBar := Mean(mr);
    MeanNonNegative(mr);
    IMRChart(xs, mr,
             Limits(mean, mean + IFactor * mrBar, mean - IFactor * mrBar),
             Limits(mrBar, MRFactor * mrBar, 0.0))
  }

  lemma {:induction false} ConsecutiveEqual(xs: seq<real>, k: nat)
    requires k < |xs|
    requires forall i :: 0 <= i < |xs| - 1 ==> xs[i + 1] == xs[i]
    ensures xs[k] == xs[0]
  {
    if k > 0 {
      ConsecutiveEqual(xs, k - 1);
    }
  }

  /** The I-MR limits collapse onto the centre line exactly when the series is
      constant, which is exactly when the mean moving range is zero. */
  lemma ConstantSeriesCollapses(xs: seq<real>)
    requires |xs| >= 2
    ensures (forall i :: 0 <= i < |xs| ==> xs[i] == xs[0])
            <==> IMRChartOf(xs).mrLimits.center == 0.0
    ensures IMRChartOf(xs).mrLimits.center == 0.0
            <==> IMRChartOf(xs).iLimits.ucl == IMRChartOf(xs).iLimits.lcl
  {
    var c := IMRChartOf(xs);
    var mr := c.movingRanges;
    MeanZeroIff(mr);
    SumZeroIff(mr);
    if forall i :: 0 <= i < |xs| ==> xs[i] == xs[0] {
      forall i | 0 <= i < |mr| ensures mr[i] == 0.0 {
        assert xs[i + 1] == xs[i];
      }
    }
    if c.mrLimits.center == 0.0 {
      forall i | 0 <= i < |xs| - 1 ensures xs[i + 1] == xs[i] {
        assert mr[i] == 0.0;
      }
      forall k | 0 <= k < |xs| ensures xs[k] == xs[0] {
        ConsecutiveEqual(xs, k);
      }
    }
  }

  /** Moving every value by `c` moves the I limits by `c` and leaves the
      moving ranges and their limits as they were. */
  lemma IMRShift(xs: seq<real>, c: real)
    requires |xs| >= 2
    ensures IMRChartOf(Shift(xs, c)).movingRanges == IMRChartOf(xs).movingRanges
    ensures IMRChartOf(Shift(xs, c)).mrLimits == IMRChartOf(xs).mrLimits
    ensures IMRChartOf(Shift(xs, c)).iLimits.center == IMRChartOf(xs).iLimits.center + c
    ensures IMRChartOf(Shift(xs, c)).iLimits.ucl == IMRChartOf(xs).iLimits.ucl + c
    ensures IMRChartOf(Shift(xs, c)).iLimits.lcl == IMRChartOf(xs).iLimits.lcl + c
  {
    var ys := Shift(xs, c);
    var a, b := MovingRanges(ys), MovingRanges(xs);
    assert |a| == |b|;
    forall i | 0 <= i < |a| ensures a[i] == b[i] {
      assert ys[i + 1] - ys[i] == xs[i + 1] - xs[i];
    }
    assert a == b;
    MeanShift(xs, c);
  }

  // ---------------------------------------------------------------------------
  // p chart
  // ---------------------------------------------------------------------------

  /** Every defect count is between 0 and the number of items inspected. */
  predicate CountsWithin(counts: seq<int>, n: int)
  {
    forall i :: 0 <= i < |counts| ==> 0 <= counts[i] <= n
  }

  /** Fraction defective of each sample. */
  function Proportions(counts: seq<int>, n: int): (p: seq<real>)
    requires n > 0
    ensures |p| == |counts|
    ensures forall i :: 0 <= i < |counts| ==> p[i] * (n as real) == counts[i] as real
  {
    seq(|counts|, i requires 0 <= i < |counts| => counts[i] as real / n as real)
  }

  /** Binomial variance of a proportion over samples of `n` items. */
  function ProportionVariance(pBar: real, n: int): (v: real)
    requires n > 0
    ensures v * (n as real) == pBar * (1.0 - pBar)
    ensures 0.0 <= pBar <= 1.0 ==> 0.0 <= v
    ensures v == 0.0 <==> pBar == 0.0 || pBar == 1.0
  {
    var w := pBar * (1.0 - pBar);
    BinomialTerm(pBar);
    DivZeroIff(w, n as real);
    QuotientSign(w, n as real);
    w / n as real
  }

  lemma BinomialTerm(pBar: real)
    ensures 0.0 <= pBar <= 1.0 ==> 0.0 <= pBar * (1.0 - pBar)
    ensures pBar * (1.0 - pBar) == 0.0 <==> pBar == 0.0 || pBar == 1.0
  {
    if 0.0 <= pBar <= 1.0 {
      ProductNonNegative(pBar, 1.0 - pBar);
    }
    ProductZeroIff(pBar, 1.0 - pBar);
  }

  /** Counts within [0, n] give proportions, and a mean proportion, within
      [0, 1], so the binomial variance is never negative. */
  lemma ProportionsInUnitInterval(counts: seq<int>, n: int)
    requires |counts| > 0 && n > 0 && CountsWithin(counts, n)
    ensures forall i :: 0 <= i < |counts| ==> 0.0 <= Proportions(counts, n)[i] <= 1.0
    ensures 0.0 <= Mean(Proportions(counts, n)) <= 1.0
    ensures 0.0 <= ProportionVariance(Mean(Proportions(counts, n)), n)
  {
    var p := Proportions(counts, n);
    var m := n as real;
    forall i | 0 <= i < |counts| ensures 0.0 <= p[i] <= 1.0 {
      DivUnique(counts[i] as real, m, p[i]);
      DivBetween(counts[i] as real, m, 0.0, 1.0);
    }
    var pBar := Mean(p);
    MeanBetween(p, 0.0, 1.0);
    ProductNonNegative(pBar, 1.0 - pBar);
    DivNonNegative(pBar * (1.0 - pBar), m);
  }

  /** The mean proportion lies in [0, 1], so the binomial variance under the
      square root is not negative. Outside this domain the square root of
      `p_chart` has no real value. */
  predicate MeanProportionWithin(counts: seq<int>, n: int)
  {
    |counts| > 0 && n > 0 && 0.0 <= Mean(Proportions(counts, n)) <= 1.0
  }

  /** Counts within [0, n] put the mean proportion in the domain. */
  lemma CountsWithinSuffices(counts: seq<int>, n: int)
    requires |counts| > 0 && n > 0 && CountsWithin(counts, n)
    ensures MeanProportionWithin(counts, n)
  {
    ProportionsInUnitInterval(counts, n);
  }

  /** They are not necessary: counts of 0 and 60 out of 50 give p̄ = 0.6. */
  lemma CountsBeyondSampleSize()
    ensures MeanProportionWithin([0, 60], 50) && !CountsWithin([0, 60], 50)
  {
    var p := Proportions([0, 60], 50);
    assert p[0] == 0.0 && p[1] == 1.2;
    assert p == [0.0, 1.2];
    assert p[1..] == [1.2];
    assert Sum(p) == 1.2;
  }

  /** What `p_chart` plots: the proportions, σ_p and the limits. */
  datatype PChart = PChart(proportions: seq<real>, sigma: real, limits: Limits)

  function PChartOf(counts: seq<int>, n: int, sqrt: real -> real): (c: PChart)
    requires MeanProportionWithin(counts, n) && IsSquareRoot(sqrt)
    ensures c.proportions == Proportions(counts, n)
    ensures c.limits.center == Mean(c.proportions) && 0.0 <= c.limits.center <= 1.0
    ensures 0.0 <= c.sigma && c.sigma * c.sigma == ProportionVariance(c.limits.center, n)
    ensures c.limits.ucl - c.limits.center == 3.0 * c.sigma
    ensures 0.0 <= c.limits.lcl <= c.limits.center <= c.limits.ucl
    ensures c.limits.center - 3.0 * c.sigma <= c.limits.lcl
    ensures c.limits.lcl == 0.0 || c.limits.lcl == c.limits.center - 3.0 * c.sigma
  {
    var p := Proportions(counts, n);
    var pBar := Mean(p);
    var v := ProportionVariance(pBar, n);
    var sigma := sqrt(v);
    var lower := pBar - 3.0 * sigma;
    PChart(p, sigma, Limits(pBar, pBar + 3.0 * sigma, if 0.0 >= lower then 0.0 else lower))
  }

  /** σ_p is zero exactly when p̄ is 0 or 1, and exactly then the two limits meet. */
  lemma PLimitsCollapse(counts: seq<int>, n: int, sqrt: real -> real)
    requires MeanProportionWithin(counts, n) && IsSquareRoot(sqrt)
    ensures PChartOf(counts, n, sqrt).sigma == 0.0
            <==> PChartOf(counts, n, sqrt).limits.center in {0.0, 1.0}
    ensures PChartOf(counts, n, sqrt).sigma == 0.0
            <==> PChartOf(counts, n, sqrt).limits.ucl == PChartOf(counts, n, sqrt).limits.lcl
  {
    var c := PChartOf(counts, n, sqrt);
    var pBar := c.limits.center;
    var v := ProportionVariance(pBar, n);
    RootPositiveIff(sqrt, v);
    DivZeroIff(pBar * (1.0 - pBar), n as real);
    ProductZeroIff(pBar, 1.0 - pBar);
  }

  /** The upper limit is not clamped at 1: nine defectives in ten items give
      a UCL above 1. */
  lemma UclCanExceedOne(sqrt: real -> real)
    requires IsSquareRoot(sqrt)
    ensures PChartOf([9], 10, sqrt).limits.ucl > 1.0
  {
    var c := PChartOf([9], 10, sqrt);
    var p := Proportions([9], 10);
    assert p[0] == 0.9;
    assert p == [0.9];
    assert Sum(p) == 0.9;
    assert c.limits.center == 0.9;
    var s := c.sigma;
    assert s * s == 0.009;
    if s <= 0.05 {
      assert s * s <= 0.05 * s;
    }
  }
}
