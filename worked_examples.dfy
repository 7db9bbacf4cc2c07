/** Worked examples: small data sets whose centre lines, limits and indices
    are computed by hand and checked against the model. */
module WorkedExamples {
  import opened Stats
  import opened ControlLimits
  import opened Capability

  lemma SumOfTwo(a: real, b: real)
    ensures Sum([a, b]) == a + b
  {
    assert [a, b][1..] == [b];
    assert [b][1..] == [];
    assert Sum([b]) == b + Sum([]);
  }

  lemma SumOfThree(a: real, b: real, c: real)
    ensures Sum([a, b, c]) == a + b + c
  {
    assert [a, b, c][1..] == [b, c];
    SumOfTwo(b, c);
  }

  lemma SumOfFive(a: real, b: real, c: real, d: real, e: real)
    ensures Sum([a, b, c, d, e]) == a + b + c + d + e
  {
    assert [a, b, c, d, e][1..] == [b, c, d, e];
    assert [b, c, d, e][1..] == [c, d, e];
    SumOfThree(c, d, e);
  }

  /** A subgroup lying within [lo, hi] and reaching both ends has range hi - lo. */
  lemma RangeFromBounds(g: seq<real>, lo: real, hi: real, i: nat, j: nat)
    requires 0 <= i < |g| && 0 <= j < |g| && g[i] == lo && g[j] == hi
    requires forall k :: 0 <= k < |g| ==> lo <= g[k] <= hi
    ensures SubgroupRange(g) == hi - lo
  {
    var r := SubgroupRange(g);
    assert g[j] - g[i] <= r;
  }

  /** The first subgroup of the X-bar/R example: mean 9.8, range 2. */
  lemma FirstSubgroup()
    ensures Mean([9.0, 10.0, 11.0, 10.0, 9.0]) == 9.8
    ensures SubgroupRange([9.0, 10.0, 11.0, 10.0, 9.0]) == 2.0
  {
    SumOfFive(9.0, 10.0, 11.0, 10.0, 9.0);
    RangeFromBounds([9.0, 10.0, 11.0, 10.0, 9.0], 9.0, 11.0, 0, 2);
  }

  /** The second subgroup of the X-bar/R example: mean 10, range 2. */
  lemma SecondSubgroup()
    ensures Mean([10.0, 11.0, 9.0, 10.0, 10.0]) == 10.0
    ensures SubgroupRange([10.0, 11.0, 9.0, 10.0, 10.0]) == 2.0
  {
    SumOfFive(10.0, 11.0, 9.0, 10.0, 10.0);
    RangeFromBounds([10.0, 11.0, 9.0, 10.0, 10.0], 9.0, 11.0, 2, 1);
  }

  lemma TwoSubgroups(g0: seq<real>, g1: seq<real>)
    requires |g0| > 0 && |g1| > 0
    ensures SubgroupMeans([g0, g1]) == [Mean(g0), Mean(g1)]
    ensures SubgroupRanges([g0, g1]) == [SubgroupRange(g0), SubgroupRange(g1)]
  {
  }

  /** Any two subgroups with means 9.8 and 10 and ranges 2 give grand mean 9.9,
      R-bar 2, X-bar limits 8.746 and 11.054, and R limits 0 and 4.228. */
  lemma XRFromSubgroups(g0: seq<real>, g1: seq<real>)
    requires |g0| > 0 && |g1| > 0
    requires Mean(g0) == 9.8 && Mean(g1) == 10.0
    requires SubgroupRange(g0) == 2.0 && SubgroupRange(g1) == 2.0
    ensures XRChartOf([g0, g1], 5)
            == XRChart([9.8, 10.0], [2.0, 2.0], Limits(9.9, 11.054, 8.746), Limits(2.0, 4.228, 0.0), false)
  {
    TwoSubgroups(g0, g1);
    SumOfTwo(9.8, 10.0);
    SumOfTwo(2.0, 2.0);
  }

  /** Two subgroups of five, the 9, 10, 11 pattern in two orders. */
  lemma XRExample()
    ensures XRChartOf([[9.0, 10.0, 11.0, 10.0, 9.0], [10.0, 11.0, 9.0, 10.0, 10.0]], 5)
            == XRChart([9.8, 10.0], [2.0, 2.0], Limits(9.9, 11.054, 8.746), Limits(2.0, 4.228, 0.0), false)
  {
    FirstSubgroup();
    SecondSubgroup();
    XRFromSubgroups([9.0, 10.0, 11.0, 10.0, 9.0], [10.0, 11.0, 9.0, 10.0, 10.0]);
  }

  /** Individuals 10, 12, 11: moving ranges [2, 1], mean 11, MR-bar 1.5,
      I limits 7.01 and 14.99, MR limits 0 and 4.905. */
  lemma IMRExample()
    ensures var c := IMRChartOf([10.0, 12.0, 11.0]);
            c.movingRanges == [2.0, 1.0]
            && c.iLimits == Limits(11.0, 14.99, 7.01)
            && c.mrLimits == Limits(1.5, 4.905, 0.0)
  {
    var xs := [10.0, 12.0, 11.0];
    SumOfThree(10.0, 12.0, 11.0);
    var mr := MovingRanges(xs);
    assert mr == [2.0, 1.0];
    SumOfTwo(2.0, 1.0);
    assert Mean(xs) == 11.0 && Mean(mr) == 1.5;
  }

  /** Two and three defectives in samples of fifty: p = [0.04, 0.06],
      p-bar 0.05, σ_p² = 0.05 · 0.95 / 50, and the lower limit is clamped at 0
      because 3σ_p exceeds p-bar. */
  lemma PExample(sqrt: real -> real)
    requires IsSquareRoot(sqrt)
    ensures var c := PChartOf([2, 3], 50, sqrt);
            c.proportions == [0.04, 0.06] && c.limits.center == 0.05
            && c.sigma * c.sigma == 0.00095
            && c.limits.ucl == 0.05 + 3.0 * c.sigma
            && c.limits.lcl == 0.0
  {
    var c := PChartOf([2, 3], 50, sqrt);
    var p := Proportions([2, 3], 50);
    assert p[0] == 0.04 && p[1] == 0.06;
    assert p == [0.04, 0.06];
    SumOfTwo(0.04, 0.06);
    assert Mean(p) == 0.05;
    var s := c.sigma;
    assert s * s == 0.00095;
    if s <= 0.02 {
      assert s * s <= 0.02 * s;
    }
  }

  /** The sample 8, 9, 10, 11, 12 against the limits 7 and 13: mean 10,
      variance 2.5, and Cpk = Cp = 1/σ because the mean is centred. */
  lemma CapabilityExample(sqrt: real -> real)
    requires IsSquareRoot(sqrt)
    ensures var r := ProcessCapability([8.0, 9.0, 10.0, 11.0, 12.0], 13.0, 7.0, sqrt);
            r.mean == 10.0 && r.std * r.std == 2.5
            && r.cp.Finite? && r.cpk == r.cp && r.cp.value * r.std == 1.0
  {
    var s := [8.0, 9.0, 10.0, 11.0, 12.0];
    SumOfFive(8.0, 9.0, 10.0, 11.0, 12.0);
    assert Mean(s) == 10.0;
    var d := SquaredDeviations(s, 10.0);
    assert d == [4.0, 1.0, 0.0, 1.0, 4.0];
    SumOfFive(4.0, 1.0, 0.0, 1.0, 4.0);
    assert SampleVariance(s) == 2.5;
    InfiniteIffConstantSample(s, 13.0, 7.0, sqrt);
    assert s[1] != s[0];
    CentredIff(s, 13.0, 7.0, sqrt);
  }
}
