# SPC control limits and process capability

This project models the statistical core of the `SPCCharts` class in
`02_Implementacoes_Praticas/Python/spc_charts.py`. The class turns a snapshot
of process data into the centre lines and control limits of three chart
families, or into process-capability indices:

- **X-bar/R** (`x_r_chart`). The data are subgroups of measurements, one per
  row. Each subgroup gives a mean (X-bar) and a range (R = max − min). The
  X-bar centre line is the mean of the subgroup means, and the R centre line
  is the mean range R̄. The limits use the constants of the n = 5 table:
  A2 = 0.577, D3 = 0 and D4 = 2.114. Any other declared subgroup size only
  produces a warning.
- **I-MR** (`i_mr_chart`). The data are individual values. The moving range
  is |x[i+1] − x[i]|. The I limits are the mean ± 2.66·MR̄. The MR limits are
  0 and 3.27·MR̄.
- **p** (`p_chart`). The data are defect counts out of `n` items each. The
  proportions are counts / n. The centre line is p̄ and σ_p = √(p̄(1 − p̄)/n).
  UCL = p̄ + 3σ_p, which is not capped at 1. LCL = max(0, p̄ − 3σ_p).
- **Capability** (`process_capability`). It takes the sample mean and the
  sample standard deviation (divisor N − 1). When the standard deviation is
  positive:
  - Cp = (USL − LSL)/(6σ);
  - Cpu = (USL − mean)/(3σ);
  - Cpl = (mean − LSL)/(3σ);
  - Cpk = min(Cpu, Cpl).

  Otherwise Cp and Cpk are both +∞.

All arithmetic uses exact reals. The square root is a parameter `sqrt` that is
only required to return the non-negative root of every non-negative real
(`Stats.IsSquareRoot`). A capability index is `Finite(v)` or `Infinite`.

Modules:

- `Stats` (`stats.dfy`): sums, means, extremes and the arithmetic facts about
  them.
- `ControlLimits` (`control_limits.dfy`): the three chart families. Each chart
  is a datatype holding the series it would plot and its `Limits`.
- `Capability` (`capability.dfy`): sample variance, the indices and
  `ProcessCapability`.
- `WorkedExamples` (`worked_examples.dfy`): four small data sets whose limits
  and indices were worked out by hand and are proved equal to the model's.

## Model

| member | source | states |
|---|---|---|
| Stats.Max | 02_Implementacoes_Praticas/Python/spc_charts.py:71 | the row maximum is an element of the subgroup and bounds every element from above |
| Stats.Min | 02_Implementacoes_Praticas/Python/spc_charts.py:71 | the row minimum is an element of the subgroup and bounds every element from below |
| Stats.MeanTimesCount | 02_Implementacoes_Praticas/Python/spc_charts.py:70-74 | `.mean()` (also at lines 110-111, 145 and 172): the mean times the number of values is their sum, which determines the mean |
| Stats.MeanWithinExtremes | 02_Implementacoes_Praticas/Python/spc_charts.py:70-71 | a subgroup mean lies between the subgroup's minimum and maximum |
| Stats.MeanBetween | 02_Implementacoes_Praticas/Python/spc_charts.py:145 | a mean lies within any bounds that every element respects |
| Stats.MeanShift | 02_Implementacoes_Praticas/Python/spc_charts.py:110 | adding a constant to every value adds it to the mean |
| Stats.RootPositiveIff | 02_Implementacoes_Praticas/Python/spc_charts.py:147 | the square root is non-negative, and zero exactly for zero |
| Stats.Abs | 02_Implementacoes_Praticas/Python/spc_charts.py:108 | `np.abs`: the result is non-negative and is the value or its negation |
| Stats.FlattenMembers | 02_Implementacoes_Praticas/Python/spc_charts.py:166 | `ravel`: the flattened data hold every measurement of every row, and nothing else |
| Stats.FlattenLength | 02_Implementacoes_Praticas/Python/spc_charts.py:166 | `ravel` of rows of a common length n gives rows × n measurements |
| ControlLimits.SubgroupRange | 02_Implementacoes_Praticas/Python/spc_charts.py:71 | max − min is non-negative, bounds every difference between two members of the subgroup, and equals one such difference |
| ControlLimits.SubgroupMeans | 02_Implementacoes_Praticas/Python/spc_charts.py:70 | one mean per row, each the mean of that row |
| ControlLimits.SubgroupRanges | 02_Implementacoes_Praticas/Python/spc_charts.py:71 | one range per row, each the range of that row |
| ControlLimits.XRChartOf | 02_Implementacoes_Praticas/Python/spc_charts.py:70-83 | centre lines are the mean of the means and R̄ ≥ 0; X-bar limits lie A2·R̄ on either side, so LCL ≤ centre ≤ UCL; UCL_R = D4·R̄ and LCL_R = 0, so 0 ≤ R̄ ≤ UCL_R; the warning is raised exactly when the declared size is not 5 |
| ControlLimits.XRIgnoresDeclaredSize | 02_Implementacoes_Praticas/Python/spc_charts.py:76-78 | the declared subgroup size changes neither the series nor any limit |
| ControlLimits.SumOfSubgroupMeans | 02_Implementacoes_Praticas/Python/spc_charts.py:70-73 | with rows of common size n, n times the total of the row means is the total of all measurements |
| ControlLimits.MeanOfSubgroupMeans | 02_Implementacoes_Praticas/Python/spc_charts.py:70-73 | with rows of common size, the mean of the row means is the mean of all measurements |
| ControlLimits.GrandMeanIsOverallMean | 02_Implementacoes_Praticas/Python/spc_charts.py:73 | with rows of common size, the X-bar centre line is the overall mean |
| ControlLimits.MovingRanges | 02_Implementacoes_Praticas/Python/spc_charts.py:108 | N − 1 entries for N ≥ 1 values (none for none); entry i is non-negative and is ±(x[i+1] − x[i]) |
| ControlLimits.MovingRangeIsPairRange | 02_Implementacoes_Praticas/Python/spc_charts.py:108 | each moving range equals the X-bar/R range of the two-value subgroup it spans |
| ControlLimits.IMRChartOf | 02_Implementacoes_Praticas/Python/spc_charts.py:108-117 | the I centre line is the mean and MR̄ ≥ 0; the I limits lie 2.66·MR̄ on either side; UCL_MR = 3.27·MR̄ and LCL_MR = 0, so 0 ≤ MR̄ ≤ UCL_MR |
| ControlLimits.ConstantSeriesCollapses | 02_Implementacoes_Praticas/Python/spc_charts.py:108-114 | the series is constant ⇔ MR̄ = 0 ⇔ the two I limits coincide |
| ControlLimits.IMRShift | 02_Implementacoes_Praticas/Python/spc_charts.py:108-117 | shifting every value by c shifts the I centre line and limits by c and leaves the moving ranges and MR limits unchanged |
| ControlLimits.Proportions | 02_Implementacoes_Praticas/Python/spc_charts.py:144 | one proportion per sample, with proportion × n = count |
| ControlLimits.ProportionVariance | 02_Implementacoes_Praticas/Python/spc_charts.py:147 | the binomial variance times n is p̄(1 − p̄); it is non-negative for p̄ in [0, 1] and zero exactly for p̄ = 0 or p̄ = 1 |
| ControlLimits.ProportionsInUnitInterval | 02_Implementacoes_Praticas/Python/spc_charts.py:144-147 | counts in [0, n] give every proportion and p̄ in [0, 1], so p̄(1 − p̄)/n ≥ 0 |
| ControlLimits.CountsWithinSuffices | 02_Implementacoes_Praticas/Python/spc_charts.py:144-147 | counts in [0, n] put p̄ in [0, 1], the domain of the p chart |
| ControlLimits.CountsBeyondSampleSize | 02_Implementacoes_Praticas/Python/spc_charts.py:144-147 | that condition is not necessary: counts 0 and 60 out of 50 fall outside [0, n] yet give p̄ = 0.6, within the domain |
| ControlLimits.PChartOf | 02_Implementacoes_Praticas/Python/spc_charts.py:144-149 | for any counts whose p̄ lies in [0, 1]: σ_p ≥ 0 and σ_p² = p̄(1 − p̄)/n; UCL = p̄ + 3σ_p; 0 ≤ LCL ≤ p̄ ≤ UCL; LCL is 0 or p̄ − 3σ_p, whichever is larger |
| ControlLimits.PLimitsCollapse | 02_Implementacoes_Praticas/Python/spc_charts.py:145-149 | σ_p = 0 ⇔ p̄ ∈ {0, 1} ⇔ UCL = LCL |
| ControlLimits.UclCanExceedOne | 02_Implementacoes_Praticas/Python/spc_charts.py:148 | the UCL is not capped at 1: nine defectives in ten items give a UCL above 1 |
| Capability.SquaredDeviations | 02_Implementacoes_Praticas/Python/spc_charts.py:173 | one non-negative squared deviation per value, zero exactly where the value equals the mean |
| Capability.SampleVariance | 02_Implementacoes_Praticas/Python/spc_charts.py:173 | the variance with divisor N − 1 is non-negative |
| Capability.VarianceZeroIff | 02_Implementacoes_Praticas/Python/spc_charts.py:173 | the variance is zero exactly when every value is the same |
| Capability.PotentialIndex | 02_Implementacoes_Praticas/Python/spc_charts.py:175 | Cp times 6σ is USL − LSL; Cp is non-negative exactly when LSL ≤ USL |
| Capability.UpperIndex | 02_Implementacoes_Praticas/Python/spc_charts.py:178 | Cpu times 3σ is USL − mean; Cpu is non-negative exactly when the mean is at most the USL |
| Capability.LowerIndex | 02_Implementacoes_Praticas/Python/spc_charts.py:179 | Cpl times 3σ is mean − LSL; Cpl is non-negative exactly when the mean is at least the LSL |
| Capability.Smaller | 02_Implementacoes_Praticas/Python/spc_charts.py:180 | the result is one of its two arguments and is no larger than either |
| Capability.IndicesAverageToCp | 02_Implementacoes_Praticas/Python/spc_charts.py:175-180 | Cpu + Cpl = 2·Cp, hence min(Cpu, Cpl) ≤ Cp |
| Capability.CpkIsCpIffCentred | 02_Implementacoes_Praticas/Python/spc_charts.py:175-180 | min(Cpu, Cpl) = Cp exactly when the mean is (USL + LSL)/2 |
| Capability.ProcessCapability | 02_Implementacoes_Praticas/Python/spc_charts.py:172-180 | the mean and std are returned, with std ≥ 0 and std² equal to the sample variance; Cp and Cpk are +∞ exactly when std = 0; otherwise Cp·6σ = USL − LSL and Cpk = min(Cpu, Cpl); always Cpk ≤ Cp |
| Capability.InfiniteIffConstantSample | 02_Implementacoes_Praticas/Python/spc_charts.py:173-176 | Cp (and Cpk) is +∞ exactly when every value of the sample is the same |
| Capability.CentredIff | 02_Implementacoes_Praticas/Python/spc_charts.py:175-180 | with a positive spread, Cpk = Cp exactly when the mean is midway between the limits |
| Capability.CapabilityShift | 02_Implementacoes_Praticas/Python/spc_charts.py:172-180 | shifting the sample and both limits by c shifts the mean by c and leaves std, Cp and Cpk unchanged |
| WorkedExamples.RangeFromBounds | 02_Implementacoes_Praticas/Python/spc_charts.py:71 | a subgroup within [lo, hi] that reaches both ends has range hi − lo |
| WorkedExamples.XRFromSubgroups | 02_Implementacoes_Praticas/Python/spc_charts.py:70-83 | two subgroups with means 9.8 and 10 and ranges 2 give the limits 8.746, 9.9, 11.054 and 0, 2, 4.228 with no warning |
| WorkedExamples.XRExample | 02_Implementacoes_Praticas/Python/spc_charts.py:70-83 | the subgroups 9, 10, 11, 10, 9 and 10, 11, 9, 10, 10 give those limits |
| WorkedExamples.IMRExample | 02_Implementacoes_Praticas/Python/spc_charts.py:108-117 | the values 10, 12, 11 give moving ranges 2, 1, I limits 7.01, 11, 14.99 and MR limits 0, 1.5, 4.905 |
| WorkedExamples.PExample | 02_Implementacoes_Praticas/Python/spc_charts.py:144-149 | counts 2 and 3 out of 50 give p = 0.04, 0.06, p̄ = 0.05, σ_p² = 0.00095, and an LCL clamped to 0 |
| WorkedExamples.CapabilityExample | 02_Implementacoes_Praticas/Python/spc_charts.py:172-180 | the sample 8…12 against limits 7 and 13 gives mean 10 and variance 2.5; it is centred, so Cpk = Cp = 1/σ |

## Left out

- Plotting is not modelled: `_plot_control_chart`, the figures, the histogram and the fitted normal curve. It is rendering through matplotlib and scipy. Each chart returns the series and limits it would draw.
- Input dispatch between a DataFrame, a Series and a list is not modelled. The charts take `seq<seq<real>>` (one row per subgroup), `seq<real>` or `seq<int>` directly. `process_capability` flattens a DataFrame with `ravel`. For rows of one common length, `Stats.Flatten` (row-major concatenation) is that flattening. `ProcessCapability` takes the already flattened sample.
- The X-bar/R size warning is printed to the console in the source. It becomes the boolean field `sizeWarning`.
- Floating-point rounding, NaN and infinities other than the capability indices' +∞ are not modelled. The model uses exact reals. So it requires these inputs, outside which the source gives NaN, infinities or meaningless limits:
  - non-empty data;
  - at least two values for the moving ranges and the standard deviation;
  - `n > 0` for the p chart, because `n` is the number of items inspected. `n = 0` gives infinities or NaN. A negative `n` gives finite but meaningless limits: counts 2 and 3 with `n = −50` give p̄ = −0.05 and σ_p² = 0.00105.
  - a mean proportion p̄ in [0, 1] for the p chart (`MeanProportionWithin`). With `n > 0` and p̄ outside that interval, p̄(1 − p̄) is negative and numpy's square root gives NaN.

  A single value gives numpy a NaN standard deviation, which the source then treats like a zero spread.
- Subgroups of unequal size (NaN-padded rows, whose NaNs pandas skips) are modelled as rows of different lengths. `GrandMeanIsOverallMean` holds only for rows of one common size.
- `ProcessCapability` on such ragged data is not modelled. There `ravel` keeps the NaN pads, so numpy's mean and standard deviation are NaN: the source reports a NaN mean and Cp = Cpk = +∞. `Stats.Flatten` drops the pads, so it models `ravel` only for rectangular data.
- The square root is a parameter `sqrt` satisfying `IsSquareRoot`, not a computed function.
- The demonstration block, its Cpk interpretation tiers, the random data generator and its CSV output are not modelled. They do I/O and draw random numbers, and hold no logic to verify.
- Empty data, `n = 0` and `n < 0` raise no error in the source. The first two give NaN or infinities and the last gives finite but meaningless limits. The model excludes all three by precondition, as listed above. A DataFrame without a `defective` column fails with a `KeyError` inside the input dispatch, which is left out above.
