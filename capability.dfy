/** Process capability of `SPCCharts.process_capability`: the sample mean,
    the sample standard deviation (divisor N - 1) and the indices Cp and Cpk
    against an upper and a lower specification limit. The histogram and the
    fitted normal curve are not modelled. */
module Capability {
  import opened Stats

  /** A capability index: a finite real, or +∞ for a sample with no spread. */
  datatype Index = Finite(value: real) | Infinite

  /** `a <= b` on the reals extended with +∞. */
  predicate AtMost(a: Index, b: Index)
  {
    match (a, b)
    case (_, Infinite) => true
    case (Infinite, Finite(_)) => false
    case (Finite(x), Finite(y)) => x <= y
  }

  /** Squared deviations of the sample from `m`. */
  function SquaredDeviations(s: seq<real>, m: real): (d: seq<real>)
    ensures |d| == |s|
    ensures forall i :: 0 <= i < |s| ==> 0.0 <= d[i] && (d[i] == 0.0 <==> s[i] == m)
  {
    var d := seq(|s|, i requires 0 <= i < |s| => (s[i] - m) * (s[i] - m));
    forall i | 0 <= i < |s| ensures 0.0 <= d[i] && (d[i] == 0.0 <==> s[i] == m) {
      SquareFacts(s[i] - m, d[i]);
    }
    d
  }

  lemma SquareFacts(a: real, x: real)
    requires x == a * a
    ensures 0.0 <= x && (x == 0.0 <==> a == 0.0)
  {
    if a > 0.0 {
      PositiveSquare(a, x);
    } else if a < 0.0 {
      assert x == (-a) * (-a);
      PositiveSquare(-a, x);
    }
  }

  /** Sample variance with Bessel's correction (numpy's `ddof=1`). */
  function SampleVariance(s: seq<real>): (v: real)
    requires |s| >= 2
    ensures 0.0 <= v
  {
    var d := SquaredDeviations(s, Mean(s));
    SumNonNegative(d);
    var total := Sum(d);
    DivNonNegative(total, (|s| - 1) as real);
    total / (|s| - 1) as real
  }

  /** The variance is zero exactly when every value equals every other. */
  lemma VarianceZeroIff(s: seq<real>)
    requires |s| >= 2
    ensures SampleVariance(s) == 0.0 <==> forall i :: 0 <= i < |s| ==> s[i] == s[0]
  {
    var m := Mean(s);
    var d := SquaredDeviations(s, m);
    SumZeroIff(d);
    DivZeroIff(Sum(d), (|s| - 1) as real);
    if forall i :: 0 <= i < |s| ==> s[i] == s[0] {
      MeanOfConstant(s, s[0]);
    }
    if SampleVariance(s) == 0.0 {
      assert forall i :: 0 <= i < |s| ==> s[i] == m;
    }
  }

  /** Upper capability index Cpu: distance from the mean up to the USL in units of 3σ. */
  function UpperIndex(usl: real, mean: real, std: real): (r: real)
    requires std > 0.0
    ensures r * (3.0 * std) == usl - mean
    ensures 0.0 <= r <==> mean <= usl
  {
    QuotientSign(usl - mean, 3.0 * std);
    (usl - mean) / (3.0 * std)
  }

  /** Lower capability index Cpl: distance from the LSL up to the mean in units of 3σ. */
  function LowerIndex(lsl: real, mean: real, std: real): (r: real)
    requires std > 0.0
    ensures r * (3.0 * std) == mean - lsl
    ensures 0.0 <= r <==> lsl <= mean
  {
    QuotientSign(mean - lsl, 3.0 * std);
    (mean - lsl) / (3.0 * std)
  }

  /** Potential capability Cp: specification width in units of 6σ. */
  function PotentialIndex(usl: real, lsl: real, std: real): (r: real)
    requires std > 0.0
    ensures r * (6.0 * std) == usl - lsl
    ensures 0.0 <= r <==> lsl <= usl
  {
    QuotientSign(usl - lsl, 6.0 * std);
    (usl - lsl) / (6.0 * std)
  }

  /** Python's two-argument `min`. */
  function Smaller(a: real, b: real): (r: real)
    ensures r <= a && r <= b && (r == a || r == b)
  {
    if b < a then b else a
  }

  /** Cpu and Cpl always average to Cp, so Cpk = min(Cpu, Cpl) never exceeds Cp. */
  lemma {:induction false} IndicesAverageToCp(usl: real, lsl: real, mean: real, std: real)
    requires std > 0.0
    ensures UpperIndex(usl, mean, std) + LowerIndex(lsl, mean, std) == 2.0 * PotentialIndex(usl, lsl, std)
    ensures Smaller(UpperIndex(usl, mean, std), LowerIndex(lsl, mean, std)) <= PotentialIndex(usl, lsl, std)
  {
    var k := 3.0 * std;
    var cpu, cpl, cp := UpperIndex(usl, mean, std), LowerIndex(lsl, mean, std), PotentialIndex(usl, lsl, std);
    assert cpu * k == usl - mean;
    assert cpl * k == mean - lsl;
    assert cp * (2.0 * k) == usl - lsl;
    assert (cpu + cpl) * k == (2.0 * cp) * k;
    MulCancel(cpu + cpl, 2.0 * cp, k);
  }

  lemma MulCancel(a: real, b: real, k: real)
    requires k != 0.0 && a * k == b * k
    ensures a == b
  {
    assert (a - b) * k == 0.0;
    ProductZeroIff(a - b, k);
  }

  /** Cpk equals Cp exactly when the mean sits midway between the specification limits. */
  lemma {:induction false} CpkIsCpIffCentred(usl: real, lsl: real, mean: real, std: real)
    requires std > 0.0
    ensures Smaller(UpperIndex(usl, mean, std), LowerIndex(lsl, mean, std)) == PotentialIndex(usl, lsl, std)
            <==> mean == (usl + lsl) / 2.0
  {
    IndicesAverageToCp(usl, lsl, mean, std);
    var k := 3.0 * std;
    var cpu, cpl := UpperIndex(usl, mean, std), LowerIndex(lsl, mean, std);
    assert cpu * k == usl - mean;
    assert cpl * k == mean - lsl;
    if cpu == cpl {
      assert usl - mean == mean - lsl;
    }
    if mean == (usl + lsl) / 2.0 {
      assert cpu * k == cpl * k;
      MulCancel(cpu, cpl, k);
    }
  }

  /** What `process_capability` returns besides its figure. */
  datatype CapabilityResult = CapabilityResult(cp: Index, cpk: Index, mean: real, std: real)

  function ProcessCapability(sample: seq<real>, usl: real, lsl: real, sqrt: real -> real): (r: CapabilityResult)
    requires |sample| >= 2 && IsSquareRoot(sqrt)
    ensures r.mean == Mean(sample)
    ensures 0.0 <= r.std && r.std * r.std == SampleVariance(sample)
    ensures r.cp.Infinite? <==> r.std == 0.0
    ensures r.cpk.Infinite? <==> r.cp.Infinite?
    ensures r.cp.Finite? ==> r.cp.value * (6.0 * r.std) == usl - lsl
    ensures r.cpk.Finite? ==>
              r.cpk.value == Smaller(UpperIndex(usl, r.mean, r.std), LowerIndex(lsl, r.mean, r.std))
    ensures AtMost(r.cpk, r.cp)
  {
    var mean := Mean(sample);
    var variance := SampleVariance(sample);
    var std := sqrt(variance);
    if std > 0.0 then
      IndicesAverageToCp(usl, lsl, mean, std);
      var cpu := UpperIndex(usl, mean, std);
      var cpl := LowerIndex(lsl, mean, std);
      CapabilityResult(Finite(PotentialIndex(usl, lsl, std)), Finite(Smaller(cpu, cpl)), mean, std)
    else
      CapabilityResult(Infinite, Infinite, mean, std)
  }

  /** Both indices are +∞ exactly when every value of the sample is the same. */
  lemma InfiniteIffConstantSample(sample: seq<real>, usl: real, lsl: real, sqrt: real -> real)
    requires |sample| >= 2 && IsSquareRoot(sqrt)
    ensures ProcessCapability(sample, usl, lsl, sqrt).cp == Infinite
            <==> forall i :: 0 <= i < |sample| ==> sample[i] == sample[0]
    ensures ProcessCapability(sample, usl, lsl, sqrt).cpk == Infinite
            <==> forall i :: 0 <= i < |sample| ==> sample[i] == sample[0]
  {
    VarianceZeroIff(sample);
    RootPositiveIff(sqrt, SampleVariance(sample));
  }

  /** With a positive spread, Cpk = Cp exactly when the process is centred. */
  lemma CentredIff(sample: seq<real>, usl: real, lsl: real, sqrt: real -> real)
    requires |sample| >= 2 && IsSquareRoot(sqrt)
    requires ProcessCapability(sample, usl, lsl, sqrt).cp.Finite?
    ensures ProcessCapability(sample, usl, lsl, sqrt).cpk == ProcessCapability(sample, usl, lsl, sqrt).cp
            <==> Mean(sample) == (usl + lsl) / 2.0
  {
    var r := ProcessCapability(sample, usl, lsl, sqrt);
    CpkIsCpIffCentred(usl, lsl, r.mean, r.std);
  }

  /** Moving the sample and both specification limits by `c` moves the mean by
      `c` and leaves the spread and both indices unchanged. */
  lemma CapabilityShift(sample: seq<real>, usl: real, lsl: real, c: real, sqrt: real -> real)
    requires |sample| >= 2 && IsSquareRoot(sqrt)
    ensures ProcessCapability(Shift(sample, c), usl + c, lsl + c, sqrt).mean
            == ProcessCapability(sample, usl, lsl, sqrt).mean + c
    ensures ProcessCapability(Shift(sample, c), usl + c, lsl + c, sqrt).std
            == ProcessCapability(sample, usl, lsl, sqrt).std
    ensures ProcessCapability(Shift(sample, c), usl + c, lsl + c, sqrt).cp
            == ProcessCapability(sample, usl, lsl, sqrt).cp
    ensures ProcessCapability(Shift(sample, c), usl + c, lsl + c, sqrt).cpk
            == ProcessCapability(sample, usl, lsl, sqrt).cpk
  {
    var shifted := Shift(sample, c);
    MeanShift(sample, c);
    var m := Mean(sample);
    var a, b := SquaredDeviations(shifted, m + c), SquaredDeviations(sample, m);
    forall i | 0 <= i < |sample| ensures a[i] == b[i] {
      assert shifted[i] - (m + c) == sample[i] - m;
    }
    assert a == b;
    assert SampleVariance(shifted) == SampleVariance(sample);
  }
}
