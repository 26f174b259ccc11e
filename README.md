# TRAIT3D single-track analysis core, in Dafny

This project models the core of TRAIT3D's single-particle-tracking analysis: the discrete,
exact-arithmetic skeleton around its statistics. Positions, times, MSD values and apparent
diffusion coefficients are Dafny `real`s. The library functions (`np.sqrt`, `np.exp`, `np.log`,
`t ** alpha`, `np.std`), `scipy.optimize.curve_fit`, the Rayleigh histogram fit and the
categorisation `_categorize` enter as function-valued parameters. The few facts the analyses
rely on are stated in `Numerics.Sane`: `exp(0) = 1`, `log(1) = 0`, `sqrt` is positive and
monotone, and `t ** 1 = t`. Integers, truncation (`int()`) and `np.ceil` are modelled exactly.

Modules follow the program's structure:

- `Wrappers`: `Option`, `Result` and `Outcome`.
- `Numerics`: the library functions as oracles, plus sums, means, `int()`, `ceil` and sortedness.
- `Displacement`: squared displacements at one lag (`Track.SD`, `_calculate_sd_at`) and the
  per-lag MSD bucket (`MSD_loop`). The MSD and MSD-error curves are built slot by slot, one slot
  per lag.
- `Models`: the five apparent-diffusion models and the two MSD models of `models.py`, with their
  arities, bounds and initial guesses.
- `FitRange`: how many points a fit uses (from a fraction, an explicit count or a maximum time),
  the `n_points >= 2` assertion and the warning. Also the merging of initial guesses.
- `Selection`: RSS, BIC, the BIC argmin of `adc_analysis`, and the relative likelihoods.
- `Averaging`: `smartAveraging`.
- `SdSweep`: the per-lag loop of `sd_analysis`.
- `Tracks`: the `Track` class. It holds the cached MSD arrays and the two results records, and
  has methods `calculateMSD`, `msd_analysis`, `sd_analysis` and `delete_`/`get_` for each record.

Code that works step by step is imperative Dafny, proved against a specification function:

- `calculateMSD` fills arrays in a loop;
- `msd_analysis` merges guesses slot by slot;
- `sd_analysis` appends per lag;
- `smartAveraging` counts and accumulates.

The formulas, `SD`, `MSD_loop`, `BIC` and the fit-range rules are functions.

## Model

| member | source | states |
|---|---|---|
| `Numerics.Trunc` | iscat_lib/analysis.py:158-160 | Python's `int()` of a float truncates toward zero: the result lies within one of the argument, on the side of zero |
| `Numerics.Ceil` | iscat_lib/analysis/_sd.py:65 | `np.ceil` gives the least integer not below its argument |
| `Numerics.Roots` | iscat_lib/analysis/_sd.py:61 | the element-wise `np.sqrt` of an array (the distances `x_fit`, and at `_msd.py:86-87` the parameter errors) has one entry per input entry |
| `Numerics.SumPermutation` | iscat_lib/analysis.py:60 | reordering values (as a sort does) keeps their sum |
| `Numerics.MeanNonNegative` | iscat_lib/analysis.py:220 | the mean of non-negative squared displacements is non-negative |
| `Displacement.SqDisp` | iscat_lib/analysis.py:58 | each squared displacement `dx**2 + dy**2` is non-negative |
| `Displacement.DisplacementsNonNegative` | iscat_lib/analysis.py:55-58 | the vectorised displacement array over `arange(lo, hi)` has `hi - lo` entries, all non-negative |
| `Displacement.Sort` | iscat_lib/analysis.py:60 | the sort yields an ascending sequence that is a permutation of its input |
| `Displacement.SortedPermutationUnique` | iscat_lib/analysis.py:60 | any two ascending permutations of one multiset are equal, so the sort's result is the one `ndarray.sort` gives |
| `Displacement.SD` | iscat_lib/analysis.py:50-62 | `SD(j)` has exactly `N - j - 1` entries (none if `j + 1 > N`), is sorted ascending, non-negative, and a permutation of the squared displacements of the pairs `(k, k + j)`, `0 <= k < N - j - 1` |
| `Displacement.SDSpread` | iscat_lib/analysis/_sd.py:62-64 | for a lag with at least one pair, the first entry of the sorted SD series is non-negative and at most its last, so `min_x <= max_x` |
| `Displacement.MsdBucket` | iscat_lib/analysis.py:136-138 | the lag-i bucket runs over pairs starting at index 1, holds `N - i - 2 >= 1` values for every lag `1 <= i <= N - 3`, and none is negative |
| `Displacement.MsdLoop` | iscat_lib/analysis.py:215-223 | `MSD_loop(i, x, y, N)` returns the bucket's mean, which is non-negative, and its standard error |
| `Displacement.MsdLoopSwap` | iscat_lib/analysis.py:122-124 | `MSD_loop` with the coordinates passed as `(y, x)` returns exactly what it returns for `(x, y)` |
| `Displacement.MsdCurve` | iscat_lib/analysis.py:109-141 | the `MSD` array has one slot per lag `1 .. N - 3`, `N - 3` in all |
| `Displacement.MsdCurveShape` | iscat_lib/analysis.py:109-110 | the MSD array has `N - 3` slots and none is negative |
| `Displacement.MsdErrorCurve` | iscat_lib/analysis.py:141 | the MSD-error array has `N - 3` slots |
| `Displacement.MsdCurveSlot` | iscat_lib/analysis.py:135-141 | slot `i - 1` of the MSD and MSD-error arrays is what `MSD_loop` computes for lag `i` |
| `Displacement.SwappedLoopFillsSlot` | iscat_lib/analysis.py:119-133 | the `k`-th parallel result, `MSD_loop(k + 1, y, x, N)`, equals slot `k` of both arrays |
| `Displacement.MsdBucketDropsFirstPair` | iscat_lib/analysis.py:136-138 | on a whole track, the lag-i MSD bucket is `SD(i)` without the pair that starts at index 0: the SD sum is that pair plus the bucket's sum |
| `Models.Localisation` | iscat_lib/analysis/models.py:25 | the localisation term `delta**2 / (2t(1 - 2 R dt / t))` is 0 for `delta = 0` and never negative once `t` exceeds the scan shift `2 R dt` |
| `Models.Confinement` | iscat_lib/analysis/models.py:45-46 | the confinement term vanishes when `D_micro = 0` |
| `Models.Brownian` | iscat_lib/analysis/models.py:24-25 | `ModelBrownian` is at least `D` once `t > 2 R dt`, and exactly `D` without localisation error |
| `Models.Confined` | iscat_lib/analysis/models.py:44-46 | `ModelConfined` with `D_micro = 0` is `ModelImmobile` |
| `Models.Hop` | iscat_lib/analysis/models.py:65-68 | `ModelHop` with `D_micro = 0` is `ModelBrownian` with `D = D_macro` |
| `Models.Immobile` | iscat_lib/analysis/models.py:87-88 | `ModelImmobile` is never negative once `t > 2 R dt`, and 0 without localisation error |
| `Models.HopModified` | iscat_lib/analysis/models.py:107-109 | `ModelHopModified` is `alpha D_macro` when `D_micro = 0`, and `D_macro` when `alpha = 1` |
| `Models.Linear` | iscat_lib/analysis/models.py:115-116 | `ModelLinear` is the offset `2 delta2` at `t = 0` or for `D = 0` |
| `Models.Power` | iscat_lib/analysis/models.py:120-121 | `ModelPower` is the offset `2 delta2` for `D = 0`, and `ModelLinear` for `alpha = 1` |
| `Models.DappModel.Eval` | iscat_lib/analysis/models.py:24-109 | calling a catalogue model on `(t, *p)`: Brownian is at least its `D` once `t > 2 R dt`, Immobile is Brownian with `D = 0`, Hop is `D_macro` plus Confined, and HopModified with `alpha = 1` is `D_macro` |
| `Models.CatalogueConsistent` | iscat_lib/analysis/models.py:17-102 | every Dapp model has as many lower bounds and initial guesses as parameters (Brownian 2, Confined 3, Hop 4, Immobile 1, HopModified 4); all lower bounds are 0; every upper bound is infinite; every initial guess respects its lower bound |
| `Models.FreshLocalisation` | iscat_lib/analysis/models.py:20-25 | a freshly built model (`R = dt = 0`) has localisation term `delta**2 / (2t)` |
| `Models.LocalisationShift` | iscat_lib/analysis/models.py:24-25 | the point-scanning correction equals `delta**2 / (2t - 4 R dt)` |
| `Models.ImmobileIsStillBrownian` | iscat_lib/analysis/models.py:87-88 | `Immobile(t, delta) == Brownian(t, 0, delta)` for the same `R`, `dt` |
| `Models.HopIsConfinedPlusMacro` | iscat_lib/analysis/models.py:65-68 | `Hop(t, Dmac, Dmic, delta, tau) == Dmac + Confined(t, Dmic, delta, tau)` |
| `Models.HopModifiedEnds` | iscat_lib/analysis/models.py:107-109 | `HopModified` with `alpha = 1` is `D_macro`; with `alpha = 0` it is `D_micro (1 - exp(-t/tau))` |
| `Models.LinearShape` | iscat_lib/analysis/models.py:115-116 | `Linear` is `2 delta2` at `t = 0` and non-decreasing in `t` for `D >= 0` |
| `Models.PowerWithUnitExponent` | iscat_lib/analysis/models.py:120-121 | the power-law MSD model with exponent 1 is the linear model |
| `FitRange.QuarterCapIsQuarter` | iscat_lib/analysis.py:164 | `int(0.25 * N)` is the integer quarter `N / 4` |
| `FitRange.CheckFitPoints` | iscat_lib/analysis/_msd.py:59-63 | fails (the assertion) exactly when `n_points < 2`; otherwise keeps `n_points` and warns iff `n_points > int(0.25 N)` |
| `FitRange.ClassicalFitPoints` | iscat_lib/analysis.py:157-166 | an explicit `nFitPoints` wins, else `int(fractionFitPoints * N)`, followed by the check |
| `FitRange.AdcFitPoints` | iscat_lib/analysis.py:338-348 | in `adc_analysis`, `nFitPoints` is a fraction: `int(nFitPoints * N)`, default `int(0.25 N)`, followed by the check |
| `FitRange.DefaultsNeverWarn` | iscat_lib/analysis.py:338-345 | the default fraction never triggers the warning, in either variant |
| `FitRange.LastIndexBelow` | iscat_lib/analysis/_msd.py:52 | `argwhere(T < fit_max_time)[-1]`: an index whose time is below the cut and after which every time is at or above it; no index exactly when no time is below the cut |
| `FitRange.MsdFitPoints` | iscat_lib/analysis/_msd.py:51-63 | `fit_max_time` beats `n_fit_points`, which beats `fraction_fit_points`; a cut with no time below it is an error |
| `FitRange.MaxTimeDropsLastPoint` | iscat_lib/analysis/_msd.py:51-75 | on an increasing time axis, the times below the cut are exactly indices `0..n_points`, so the fitted prefix `T[0:n_points]` omits the last of them |
| `FitRange.Prefix` | iscat_lib/analysis/_msd.py:75 | `s[0:n]` has `min(n, len(s))` elements and is a prefix of `s` |
| `FitRange.OversizedFraction` | iscat_lib/analysis/_msd.py:56-63 | a fraction of 1.1 on 40 points gives a warned `n_points = 44`, yet the fitted slice is the whole 40-point curve |
| `FitRange.UpdateGuesses` | iscat_lib/analysis/_msd.py:37-38 | `p0.update(initial_guesses)` replaces a caller's key as a whole and keeps the `None` defaults for the rest |
| `FitRange.MergeGuess` | iscat_lib/analysis/_msd.py:69-72 | the slot loop overrides exactly the non-`None` slots of the defaults; a caller list shorter than the defaults raises at its length |
| `FitRange.Overlay` | iscat_lib/analysis/_msd.py:69-81 | the merged guess has one slot per default; a `None` slot keeps the default and any other slot wins |
| `FitRange.OverlayLaws` | iscat_lib/analysis/_msd.py:79-81 | all-`None` slots keep the defaults, slots with no `None` replace them, and merging twice changes nothing more |
| `FitRange.Model2DefaultAsWritten` | iscat_lib/analysis/_msd.py:78 | the power-law default has three slots: the linear `D`, then 1.0 in the offset slot, then the linear offset in the exponent slot |
| `FitRange.Model2DefaultAsWrittenMisplaces` | iscat_lib/analysis/_msd.py:78 | the as-written power-law guess `[D, 1.0, delta2]` puts the offset in the exponent slot: from `reg1 = [0, 5]` it starts at the constant 2, not the linear fit's 10 |
| `FitRange.Model2Default` | iscat_lib/analysis.py:178 | the intended power-law guess keeps the linear fit's `D` and `delta2` and starts the exponent at 1 |
| `FitRange.Model2DefaultContinuesLinear` | iscat_lib/analysis/_msd.py:78-82 | the intended guess starts the power-law fit exactly on the linear fit's curve |
| `Selection.RSS` | iscat_lib/analysis/_msd.py:194 | RSS is non-negative and zero exactly when the prediction equals the target |
| `Selection.BIC` | iscat_lib/analysis/_msd.py:175-196 | with `n = 1` the BIC `k log(n) + n log(RSS / n)` is `log(RSS)` |
| `Selection.BicWithUnitCount` | iscat_lib/analysis/_msd.py:92-93 | with `n = 1` the BIC is `log(RSS)` and does not depend on the parameter count `k` |
| `Selection.Min2` | iscat_lib/analysis/_msd.py:97-98 | `min([a, b])` is at most both and equal to one of them |
| `Selection.Min3` | iscat_lib/analysis.py:374 | `min` of three BICs is at most each and equal to one of them |
| `Selection.Classify` | iscat_lib/analysis.py:374-383 | the chosen category is never "unknown", and its BIC is the least of the three |
| `Selection.ClassifyIsArgmin` | iscat_lib/analysis.py:374-383 | the category has the least BIC; ties go to brownian, then confined, then hop; "unknown" is never chosen for real BICs (each case as an if-and-only-if) |
| `Selection.RelLikelihoodExponent` | iscat_lib/analysis/_msd.py:97-98 | the exponent `(-bic + min) / 2` is at most 0 iff the BIC is at least the minimum, and 0 iff it is the minimum |
| `Selection.RelLikelihoodExponentAsWritten` | iscat_lib/analysis.py:190-191 | the as-written exponent `(bic - min) / 2` is the negated `_msd.py` exponent, so it is at least 0 for every BIC at or above the minimum |
| `Selection.RelLikelihoodOfBest` | iscat_lib/analysis/_msd.py:97-98 | both exponents `(min - bic_i) / 2` are at most 0, an exponent is 0 iff its model has the least BIC, and that model's likelihood is `exp(0) = 1` |
| `Selection.RelLikelihoodAsWrittenExceedsBest` | iscat_lib/analysis.py:190-191 | with BICs 0 and 2 the as-written exponent of the worse model is +1, above the best model's 0; the corrected exponent is -1 |
| `Averaging.Count` | iscat_lib/analysis.py:443-455 | the definition of a per-label counter, as the loop's `counter_*` increments; its own contract only bounds it by the number of tracks. What the counters mean is stated by `CountsPartition`, `ClassifiedCount` and `CountAbsent` |
| `Averaging.CurveSum` | iscat_lib/analysis.py:446-447 | the element-wise sum of a category's curves has the common curve length |
| `Averaging.LengthError` | iscat_lib/analysis.py:435-441 | no error iff every track has `len + 3` points and every MSD and D_app curve `len` values |
| `Averaging.InvalidModelAt` | iscat_lib/analysis.py:456-459 | reports the first label outside {brownian, confined, hop, unknown}, or none iff all labels are allowed |
| `Averaging.CategorySums` | iscat_lib/analysis.py:443-455 | a category's accumulated D_app and MSD sums have the common curve length |
| `Averaging.Averaged` | iscat_lib/analysis.py:410-472 | `smartAveraging` fails with `NoTracks` iff there is no track; an invalid-label error names an index whose label is not allowed; on success at least one track is classified |
| `Averaging.Tally` | iscat_lib/analysis.py:461-472 | each category's count is the number of tracks with its label |
| `Averaging.SmartAveraging` | iscat_lib/analysis.py:410-472 | the validating and accumulating loops compute exactly `Averaged`, the loop-free statement of the result or error |
| `Averaging.CheckLengths` | iscat_lib/analysis.py:435-441 | the length-checking loop reports exactly the first wrong length, in the order track, MSD, D_app |
| `Averaging.CategorySumsStep` | iscat_lib/analysis.py:444-455 | one more track adds its curves and one count to its own label's sums and leaves the other labels' sums unchanged |
| `Averaging.CountsPartition` | iscat_lib/analysis.py:443-459 | with valid labels, every track is counted under exactly one of the four labels |
| `Averaging.ClassifiedCount` | iscat_lib/analysis.py:469 | `counter_sum` is the number of tracks not labelled unknown, and it is positive iff some track is not unknown |
| `Averaging.AveragedSucceeds` | iscat_lib/analysis.py:426-459 | averaging succeeds iff there is a track of length at least 3, the four lists are equally long, all curves have the right lengths, all labels are allowed, and some track is not unknown |
| `Averaging.FractionsSumToOne` | iscat_lib/analysis.py:469-472 | on success the counters add up to the non-unknown tracks and the three fractions add up to 1 |
| `Averaging.SumOfEqualCurves` | iscat_lib/analysis.py:446-447 | if every track of a label has curve `c`, the label's sum is `count * c` |
| `Averaging.IdenticalCurvesAverageToThemselves` | iscat_lib/analysis.py:461-467 | for each of brownian, confined and hop: a non-empty category whose tracks share one D_app and one MSD curve averages to exactly those curves |
| `Averaging.CountAbsent` | iscat_lib/analysis.py:443-455 | a label that no track carries has counter 0 |
| `Averaging.OneCategoryTakesAll` | iscat_lib/analysis.py:469-472 | when every classified track carries one label, that category's fraction is 1 and the other two are 0 |
| `Averaging.UnknownTracksIgnored` | iscat_lib/analysis.py:456-457 | changing the curves of an unknown-labelled track (same lengths) leaves the whole result unchanged |
| `SdSweep.LagAnalysis` | iscat_lib/analysis/_sd.py:57-91 | one lag fails with `NoDisplacements(j)` iff it has no pair; it fails with a bin-count error for a zero bin size or a bin count `ceil((max_x - min_x) / binsize)` below one, and with a fit error when the Rayleigh fit fails; it succeeds exactly when none of these holds; every error names the lag; on success `dapp` and its error are finite iff `j dt != 0` |
| `SdSweep.LagResults` | iscat_lib/analysis/_sd.py:55-57 | one lag result per entry of `J`, in `J`'s order |
| `SdSweep.Collect` | iscat_lib/analysis/_sd.py:53-91 | when the loop completes, `dapp_list` and `err_list` each have one entry per lag |
| `SdSweep.CollectExtend` | iscat_lib/analysis/_sd.py:90-91 | one more lag appends its `dapp` and error, or ends the loop with its error |
| `SdSweep.CollectFailurePersists` | iscat_lib/analysis/_sd.py:55-71 | once a lag raises, the whole loop ends with that error |
| `SdSweep.CollectCharacterised` | iscat_lib/analysis/_sd.py:53-91 | the loop completes iff every lag succeeds, and then lists each lag's `dapp` and error at the lag's position; otherwise it fails with the first failing lag's error |
| `SdSweep.LagSweep` | iscat_lib/analysis/_sd.py:53-91 | the appending loop over `J` returns exactly `Collect` of the per-lag results |
| `SdSweep.BinCountNonNegative` | iscat_lib/analysis/_sd.py:61-65 | `max_x - min_x >= 0`, the bin count is non-negative for a positive bin size, and it is below one iff all distances are equal |
| `SdSweep.DappNonNegative` | iscat_lib/analysis/_sd.py:86-89 | for `dt > 0` and lag `j >= 1`, `dapp = sigma**2 / (2 j dt)` and its error are finite and non-negative |
| `SdSweep.ZeroStepIsNonFinite` | iscat_lib/analysis/_sd.py:86-89 | with `dt = 0` every lag's `dapp` and error are non-finite, not an exception |
| `Tracks.TimeAxis` | iscat_lib/analysis/_msd.py:48 | `T = t[0:-3]` is a prefix of `t` with `len(t) - 3` entries |
| `Tracks.TimeAxisMatchesMsd` | iscat_lib/analysis/_msd.py:45-48 | the time axis is as long as the MSD curve of the whole track |
| `Tracks.LinearCurve` | iscat_lib/analysis/_msd.py:90 | the linear model evaluated along `T` has one value per time |
| `Tracks.PowerCurve` | iscat_lib/analysis/_msd.py:91 | the power-law model evaluated along `T` has one value per time |
| `Tracks.ParallelMsd` | iscat_lib/analysis.py:119-133 | filling the arrays from the swapped-coordinate `MSD_loop` results yields exactly the MSD and MSD-error curves |
| `Tracks.SequentialMsd` | iscat_lib/analysis.py:134-141 | the sequential loop yields exactly the same MSD and MSD-error curves |
| `Tracks.FitMsd` | iscat_lib/analysis/_msd.py:69-98 | fails exactly when, in this order, the `model1` guess is short, `T[0:n]` and `MSD[0:n]` differ in length, the linear fit fails, the `model2` guess is short, or the power-law fit fails, and with that cause's error. On success each fit is run from its merged guess on the first `n_points` points (the power law from the as-written default `[D, 1.0, delta2]`), the errors are the square roots of the covariance diagonals, each BIC is `log` of its model's RSS there, and each relative likelihood is `exp((min(BIC) - BIC) / 2)`, which is 1 for a model with the least BIC |
| `Tracks.Track.constructor` | iscat_lib/analysis.py:16-31 | a new track has no cached MSD and both results records cleared |
| `Tracks.Track.CalculateMSD` | iscat_lib/analysis.py:106-144 | fails, with the size error, iff `N < 3` or the first lag reads past the track; otherwise caches exactly the MSD and MSD-error curves, whichever branch runs, and touches neither results record |
| `Tracks.Track.DeleteMsdAnalysisResults` | iscat_lib/analysis/_msd.py:6-8 | resets the MSD record to `analyzed False, results None` and changes nothing else |
| `Tracks.Track.GetMsdAnalysisResults` | iscat_lib/analysis/_msd.py:10-12 | returns the MSD record unchanged |
| `Tracks.Track.MsdAnalysis` | iscat_lib/analysis/_msd.py:14-105 | computes the MSD of the whole track only if it is not cached, and then caches exactly the MSD curve and the MSD-error curve of the whole track; that error curve is the `sigma` of both fits. The fit uses the `n_points` the precedence rules pick, with the warning they give. It fails exactly when the MSD cannot be computed (fewer than 3 points), when the fit range cannot be chosen, or for one of `FitMsd`'s causes, with that error. On success the record is `analyzed` and holds both fits as `FitMsd` states; on failure the record is unchanged. The SD record is never touched |
| `Tracks.Track.DeleteSdAnalysisResults` | iscat_lib/analysis/_sd.py:11-14 | resets the SD record to `analyzed False, model "unknown", Dapp None, results None` and changes nothing else |
| `Tracks.Track.GetSdAnalysisResults` | iscat_lib/analysis/_sd.py:7-9 | returns the SD record unchanged |
| `Tracks.Track.SdAnalysis` | iscat_lib/analysis/_sd.py:16-102 | fails on a track with fewer than two time points, or with the first failing lag's error. On success the record is `analyzed` with `J`, the per-lag `Dapp` list and the categorisation of that list; the MSD cache and record are untouched |

## Left out

- Plotting is left out: matplotlib, `plot_msd_analysis_results`, `plot_sd_analysis_results` and `display_fit`.
- Progress bars (tqdm) and the `ProcessPoolExecutor` are left out. The parallel branch is modelled by the order in which its results are stored, not by its concurrency.
- Some library calls are parameters and are not interpreted:
  - `scipy.optimize.curve_fit`, together with `p0`, bounds, `maxfev` and `method`;
  - `np.histogram` and the Rayleigh fit;
  - `np.sqrt`, `np.exp`, `np.log`, `np.std` and `t ** alpha`.

  Floating-point rounding is not modelled; IEEE infinities and NaNs appear only as `NonFinite`, the quotient by a zero time lag.
- `_categorize` and `ModelDB` are not part of this model. The categorisation is a parameter, and the `sd_analysis` arguments that are only passed on to it (`R`, `fraction_fit_points`, `fit_max_time`, `initial_guesses`, `maxfev`, log sampling) are folded into it.
- `Track.normalize` and `NormalizedTrack` are left out. The result is bound to a local name and discarded, so they have no observable effect.
- The module-level `classicalMSDAnalysis`, the `adc_analysis` input loop and `squaredDisplacementAnalysis` are left out. They call functions that do not exist (`MSD`, `normalize`, `SD(x, y, j)`). Only their fit-range and argmin fragments are modelled (`ClassicalFitPoints`, `AdcFitPoints`, `Classify`, the as-written relative likelihood).
- `Track.classicalMSDAnalysis` contributes only its fit-range rule, its model-2 initial guess and its relative-likelihood exponent. Its fits and plots are left out.
- The Dapp curve `this_msd / (4 T (1 - 2 R dt / T))` of `adc_analysis` and its three model lambdas are not modelled. The `confined` lambda there uses `exp(-tau/t)` where `models.py` uses `exp(-t/tau)`; only the `models.py` formulas are modelled.
- `calculate_msd`, the newer method that `msd_analysis` calls, is not among the files. `CalculateMSD` (the `calculateMSD` shown) stands for it, and one MSD cache stands for both `_MSD` and `_msd`.
- `os.cpu_count()` returning `None` is not modelled: the core count is an integer parameter.
- Lags are natural numbers. Negative lags would index from the end in Python and are not modelled.
- Every track has as many x as y coordinates; this is a precondition. In the source, no index above `N - 2` is read, where `N` is `x.size` or the `N` passed to `calculateMSD` (`analysis.py:55-58`, `analysis.py:136-138`, `analysis.py:216-218`, `_sd.py:167-171`). So any y with at least `N - 1` entries is accepted, the entries from `N - 1` on (of x as well) are never read, and only a shorter y raises `IndexError`.
- Tracks.Track.constructor: the analysis records start out equal to what `delete_*_analysis_results` writes. The mixin files do not show where these records are first created.
- Averaging.SmartAveraging: where the source divides an empty category by a zero counter (a NumPy warning and NaN curves), the model records `None`. A zero `counter_sum` (ZeroDivisionError) is the error `NothingClassified`. `tracks[k]` stands for the x coordinates of track k, and `msd[k]` for `MSD[k][0]`. The result is returned, not printed or plotted.
- Tracks.FitMsd: `errors` and relative likelihoods are stated through the square-root and exponential parameters, not as numbers. The BIC is stated only in its `n = 1` form, `log(RSS)`, the form every caller uses.
- Tracks.Track.GetMsdAnalysisResults: returns the record as a value. The source returns the live dictionary, which a later `msd_analysis` updates in place (`_msd.py:100-105`); that aliasing is not modelled.
- Tracks.Track.GetSdAnalysisResults: returns the record as a value. The source returns the live dictionary, which a later `sd_analysis` updates in place (`_sd.py:96-102`); that aliasing is not modelled.
- Tracks.Track.DeleteSdAnalysisResults: the source's cleared dictionary has no `"J"` key at all (`_sd.py:13-14`); the model's record keeps the field and sets it to `None`.
- Models.Localisation, and through it Models.Brownian, Models.Confined, Models.Hop, Models.Immobile and Models.DappModel.Eval: defined only where `t != 0` and `t != 2 R dt`, the points where the divisions are defined. At those points NumPy yields `inf` or `NaN` with a warning; the model leaves them out. `Models.Confinement` and `Models.HopModified` likewise need `tau != 0`.
- Tracks.Track.SdAnalysis: the `results` handle that the categorisation returns is opaque. The error list is passed to `_categorize` but not stored in the record, as in the source.

## Findings

| source | as written | input that shows it | evidently intended | confidence | as-written member | corrected member |
|---|---|---|---|---|---|---|
| iscat_lib/analysis.py:190-191 | relative likelihood `exp((bic_i - min(bic)) * 0.5)`, which is at least 1 | BICs 0 and 2: the worse model gets `e^1`, more than the best model's 1 | `exp((min(bic) - bic_i) * 0.5)`, at most 1, as in `_msd.py:97-98` | high; not executed | `Selection.RelLikelihoodAsWrittenExceedsBest` | `Selection.RelLikelihoodOfBest` |
| iscat_lib/analysis/_msd.py:78 | power-law guess `[reg1 D, 1.0, reg1 delta2]`, but `ModelPower` takes `(D, delta2, alpha)` | `reg1 = [0, 5]`: the linear fit is the constant 10, yet the guess curve is the constant 2 | `[reg1 D, reg1 delta2, 1.0]`, as in `analysis.py:178` | medium; not executed | `FitRange.Model2DefaultAsWrittenMisplaces` | `FitRange.Model2DefaultContinuesLinear` |
