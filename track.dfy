/** A single-particle track and the analyses that run on it: the MSD curve cached on the track,
    the classical MSD analysis (linear against power-law fit), the SD analysis, and the results
    records those analyses leave behind. */
module Tracks {
  import opened Wrappers
  import opened Numerics
  import opened Displacement
  import opened Models
  import opened FitRange
  import opened Selection
  import opened SdSweep

  /** One fitted model: parameters, their standard deviations, BIC and relative likelihood. */
  datatype ModelFit = ModelFit(params: seq<real>, errors: seq<real>, bic: real, relLikelihood: real)

  datatype MsdFitResults = MsdFitResults(model1: ModelFit, model2: ModelFit, nPoints: int)

  /** The record `{"analyzed": ..., "results": ...}` of the MSD analysis. */
  datatype MsdResults = MsdResults(analyzed: bool, results: Option<MsdFitResults>)

  /** The record `{"analyzed", "model", "Dapp", "J", "results"}` of the SD analysis; `results`
      is the categorisation's own result, kept as an opaque handle. */
  datatype SdResults = SdResults(analyzed: bool, model: string, dapp: Option<seq<Value>>, lags: Option<seq<nat>>, results: Option<nat>)

  const MsdCleared := MsdResults(false, None)
  const SdCleared := SdResults(false, "unknown", None, None, None)

  /** The two models `msd_analysis` fits: `ModelLinear` and `ModelPower`. */
  datatype FitTarget = LinearModel | PowerModel

  /** What `curve_fit` returns: the fitted parameters and the diagonal of their covariance. */
  datatype Fit = Fit(popt: seq<real>, pcovDiag: seq<real>)

  /** `curve_fit(model, xdata, ydata, p0, sigma)`, or `None` when it raises. */
  type CurveFit = (FitTarget, seq<real>, seq<real>, seq<real>, seq<real>) -> Option<Fit>

  /** `_categorize(Dapp, J, Dapp_err)`: a category name and an opaque results handle. */
  type Categorize = (seq<Value>, seq<nat>, seq<Value>) -> (string, nat)

  /** curve_fit returns one parameter, and one covariance entry, per initial guess. */
  ghost predicate KeepsArity(fit: CurveFit)
  {
    forall m, xs, ys, p0, sigma :: fit(m, xs, ys, p0, sigma).Some? ==>
      |fit(m, xs, ys, p0, sigma).value.popt| == |p0| && |fit(m, xs, ys, p0, sigma).value.pcovDiag| == |p0|
  }

  datatype TrackError =
    | MsdSize(n: int)            // np.zeros(N - 3) with N < 3, or an index past the track's end
    | FitRangeFailed(rangeError: FitRangeError)
    | GuessFailed(guessError: GuessError)
    | FitInputMismatch           // T[0:n] and MSD[0:n] differ in length
    | FitFailed(target: FitTarget)
    | SdFailed(sdError: SdError)

  /** `T = t[0:-3]`: the time axis the MSD curve is fitted against. */
  function TimeAxis(t: seq<real>): (T: seq<real>)
    ensures |T| == if |t| >= 3 then |t| - 3 else 0
    ensures T <= t
  {
    if |t| >= 3 then t[..|t| - 3] else []
  }

  /** The time axis has one entry per MSD slot when the curve is built from the whole track. */
  lemma TimeAxisMatchesMsd(x: seq<real>, y: seq<real>, t: seq<real>)
    requires |x| == |y| == |t| >= 3
    ensures |TimeAxis(t)| == |MsdCurve(x, y, |x|)|
  {
    MsdCurveShape(x, y, |x|);
  }

  /** `dt = t[1] - t[0]`: the SD analysis assumes evenly spaced time stamps. */
  function TimeStep(t: seq<real>): real
    requires |t| >= 2
  {
    t[1] - t[0]
  }

  /** `ModelLinear()(T, *p)` evaluated along the time axis. */
  function LinearCurve(T: seq<real>, p: seq<real>): (m: seq<real>)
    requires |p| == 2
    ensures |m| == |T|
  {
    seq(|T|, i requires 0 <= i < |T| => Linear(T[i], p[0], p[1]))
  }

  /** `ModelPower()(T, *p)` evaluated along the time axis. */
  function PowerCurve(T: seq<real>, p: seq<real>, nm: Numerics): (m: seq<real>)
    requires |p| == 3
    ensures |m| == |T|
  {
    seq(|T|, i requires 0 <= i < |T| => Power(T[i], p[0], p[1], p[2], nm))
  }

  /** The parallel branch of `calculateMSD`: slot `k` of the `N - 3` slot arrays receives
      `MSD_loop(k + 1, y, x, N)`, whose coordinates are swapped. */
  method ParallelMsd(x: seq<real>, y: seq<real>, N: nat, nm: Numerics) returns (curve: seq<real>, errors: seq<real>)
    requires |x| == |y| && MsdLengthFits(N, |x|) && Sane(nm)
    ensures curve == MsdCurve(x, y, N) && errors == MsdErrorCurve(x, y, N, nm)
  {
    ghost var wantMsd, wantError := MsdCurve(x, y, N), MsdErrorCurve(x, y, N, nm);
    var msdArray := new real[N - 3](_ => 0.0);
    var errorArray := new real[N - 3](_ => 0.0);
    var results := seq(N - 3, k requires 0 <= k < N - 3 => MsdLoop(k + 1, y, x, N, nm));
    var i := 0;
    while i < |results|
      invariant 0 <= i <= |results| == N - 3 == |wantMsd| == |wantError|
      invariant msdArray[..i] == wantMsd[..i]
      invariant errorArray[..i] == wantError[..i]
    {
      SwappedLoopFillsSlot(x, y, N, i, nm);
      msdArray[i] := results[i].0;
      errorArray[i] := results[i].1;
      i := i + 1;
    }
    assert msdArray[..] == msdArray[..i] && errorArray[..] == errorArray[..i];
    curve := msdArray[..];
    errors := errorArray[..];
  }

  /** The sequential branch of `calculateMSD`: for every lag `i` in `1 .. N - 3`, slot `i - 1`
      receives the mean of the lag-i bucket and its standard error. */
  method SequentialMsd(x: seq<real>, y: seq<real>, N: nat, nm: Numerics) returns (curve: seq<real>, errors: seq<real>)
    requires |x| == |y| && MsdLengthFits(N, |x|) && Sane(nm)
    ensures curve == MsdCurve(x, y, N) && errors == MsdErrorCurve(x, y, N, nm)
  {
    ghost var wantMsd, wantError := MsdCurve(x, y, N), MsdErrorCurve(x, y, N, nm);
    var msdArray := new real[N - 3](_ => 0.0);
    var errorArray := new real[N - 3](_ => 0.0);
    var i := 1;
    while i < N - 2
      invariant 1 <= i <= N - 2 && |wantMsd| == |wantError| == N - 3
      invariant msdArray[..i - 1] == wantMsd[..i - 1]
      invariant errorArray[..i - 1] == wantError[..i - 1]
    {
      MsdCurveSlot(x, y, N, i, nm);
      var bucket := MsdBucket(x, y, N, i);
      msdArray[i - 1] := Mean(bucket);
      errorArray[i - 1] := StdErr(bucket, nm);
      i := i + 1;
    }
    assert msdArray[..] == msdArray[..i - 1] && errorArray[..] == errorArray[..i - 1];
    curve := msdArray[..];
    errors := errorArray[..];
  }

  /** What a recorded MSD fit states about the time axis `T` and the curve it was fitted to:
      one parameter and one error per model parameter, each BIC is the log of the residual sum
      of squares of its model over the first `nPoints` points, each relative likelihood is
      `exp((min(BIC) - BIC) / 2)`, and a model with the least BIC has relative likelihood 1. */
  predicate FitsCurve(T: seq<real>, curve: seq<real>, res: MsdFitResults, nm: Numerics)
  {
    && res.nPoints >= 2
    && |res.model1.params| == 2 && |res.model1.errors| == 2
    && |res.model2.params| == 3 && |res.model2.errors| == 3
    && |Prefix(T, res.nPoints)| == |Prefix(curve, res.nPoints)|
    && res.model1.bic == nm.log(RSS(LinearCurve(Prefix(T, res.nPoints), res.model1.params), Prefix(curve, res.nPoints)))
    && res.model2.bic == nm.log(RSS(PowerCurve(Prefix(T, res.nPoints), res.model2.params, nm), Prefix(curve, res.nPoints)))
    && res.model1.relLikelihood == nm.exp(RelLikelihoodExponent(res.model1.bic, Min2(res.model1.bic, res.model2.bic)))
    && res.model2.relLikelihood == nm.exp(RelLikelihoodExponent(res.model2.bic, Min2(res.model1.bic, res.model2.bic)))
    && (res.model1.bic <= res.model2.bic ==> res.model1.relLikelihood == 1.0)
    && (res.model2.bic <= res.model1.bic ==> res.model2.relLikelihood == 1.0)
  }

  /** `curve_fit(ModelLinear(), T[0:n], MSD[0:n], p0 = model-1 guess, sigma = MSD_error[0:n])`. */
  function LinearFit(T: seq<real>, curve: seq<real>, sigmaAll: seq<real>, n: nat, p0: Guesses, fit: CurveFit): Option<Fit>
    requires "model1" in p0 && |p0["model1"]| >= 2
  {
    fit(LinearModel, Prefix(T, n), Prefix(curve, n), Overlay(LinearDefault, p0["model1"]), Prefix(sigmaAll, n))
  }

  /** `curve_fit(ModelPower(), ...)` from the model-2 guess whose defaults come from the linear
      parameters `reg1`, in the slot order the source writes them. */
  function PowerFit(T: seq<real>, curve: seq<real>, sigmaAll: seq<real>, n: nat, p0: Guesses, reg1: seq<real>, fit: CurveFit): Option<Fit>
    requires "model2" in p0 && |p0["model2"]| >= 3 && |reg1| == 2
  {
    fit(PowerModel, Prefix(T, n), Prefix(curve, n), Overlay(Model2DefaultAsWritten(reg1), p0["model2"]), Prefix(sigmaAll, n))
  }

  /** The exception the fitting part of `msd_analysis` raises, if any, in the order the source
      can raise them: a model-1 guess with a missing slot, `T[0:n]` and `MSD[0:n]` of different
      lengths, the linear fit failing, a model-2 guess with a missing slot, the power-law fit
      failing. `None` when both fits go through. */
  function FitMsdError(T: seq<real>, curve: seq<real>, sigmaAll: seq<real>, n: nat, p0: Guesses, fit: CurveFit): Option<TrackError>
    requires "model1" in p0 && "model2" in p0 && KeepsArity(fit)
  {
    if |p0["model1"]| < 2 then Some(GuessFailed(SlotMissing(|p0["model1"]|)))
    else if |Prefix(T, n)| != |Prefix(curve, n)| then Some(FitInputMismatch)
    else if LinearFit(T, curve, sigmaAll, n, p0, fit).None? then Some(FitFailed(LinearModel))
    else if |p0["model2"]| < 3 then Some(GuessFailed(SlotMissing(|p0["model2"]|)))
    else if PowerFit(T, curve, sigmaAll, n, p0, LinearFit(T, curve, sigmaAll, n, p0, fit).value.popt, fit).None?
    then Some(FitFailed(PowerModel))
    else None
  }

  /** How a recorded MSD fit was obtained: the linear model fitted from its merged initial guess
      over the first `nPoints` points, and the power law fitted from the guess merged over the
      default derived from the linear fit's parameters; the errors are the square roots of the
      covariance diagonals. */
  predicate FittedFrom(T: seq<real>, curve: seq<real>, sigmaAll: seq<real>, p0: Guesses, fit: CurveFit, res: MsdFitResults, nm: Numerics)
  {
    && res.nPoints >= 0 && "model1" in p0 && "model2" in p0
    && |p0["model1"]| >= 2 && |p0["model2"]| >= 3 && |res.model1.params| == 2
    && var reg1 := LinearFit(T, curve, sigmaAll, res.nPoints, p0, fit);
       var reg2 := PowerFit(T, curve, sigmaAll, res.nPoints, p0, res.model1.params, fit);
       && reg1.Some? && reg1.value.popt == res.model1.params
       && reg2.Some? && reg2.value.popt == res.model2.params
       && res.model1.errors == Roots(reg1.value.pcovDiag, nm)
       && res.model2.errors == Roots(reg2.value.pcovDiag, nm)
  }

  /** The fitting part of `msd_analysis`, once `n_points` is known: merge the linear model's
      initial guess, fit it, derive the power law's default guess from it, merge and fit that,
      then compute standard deviations, BICs (with `n = 1`) and relative likelihoods. */
  method FitMsd(T: seq<real>, curve: seq<real>, sigmaAll: seq<real>, nPoints: int, p0: Guesses, fit: CurveFit, nm: Numerics)
    returns (r: Result<MsdFitResults, TrackError>)
    requires nPoints >= 2 && "model1" in p0 && "model2" in p0 && Sane(nm) && KeepsArity(fit)
    ensures r.Failure? <==> FitMsdError(T, curve, sigmaAll, nPoints, p0, fit).Some?
    ensures r.Failure? ==> r.error == FitMsdError(T, curve, sigmaAll, nPoints, p0, fit).value
    ensures r.Success? ==> r.value.nPoints == nPoints && FitsCurve(T, curve, r.value, nm)
    ensures r.Success? ==> FittedFrom(T, curve, sigmaAll, p0, fit, r.value, nm)
  {
    var guess1 := MergeGuess(LinearDefault, p0["model1"]);
    if guess1.Failure? {
      return Failure(GuessFailed(guess1.error));
    }
    var xs := Prefix(T, nPoints);
    var ys := Prefix(curve, nPoints);
    var sigma := Prefix(sigmaAll, nPoints);
    if |xs| != |ys| {
      return Failure(FitInputMismatch);
    }
    var reg1 := fit(LinearModel, xs, ys, guess1.value, sigma);
    assert reg1 == LinearFit(T, curve, sigmaAll, nPoints, p0, fit);
    if reg1.None? {
      return Failure(FitFailed(LinearModel));
    }
    var params1 := reg1.value.popt;

    var guess2 := MergeGuess(Model2DefaultAsWritten(params1), p0["model2"]);
    if guess2.Failure? {
      return Failure(GuessFailed(guess2.error));
    }
    var reg2 := fit(PowerModel, xs, ys, guess2.value, sigma);
    assert reg2 == PowerFit(T, curve, sigmaAll, nPoints, p0, params1, fit);
    if reg2.None? {
      return Failure(FitFailed(PowerModel));
    }
    var params2 := reg2.value.popt;

    var errors1 := Roots(reg1.value.pcovDiag, nm);
    var errors2 := Roots(reg2.value.pcovDiag, nm);
    var m1 := LinearCurve(T, params1);
    var m2 := PowerCurve(T, params2, nm);
    assert Prefix(m1, nPoints) == LinearCurve(xs, params1);
    assert Prefix(m2, nPoints) == PowerCurve(xs, params2, nm);
    var bic1 := BIC(Prefix(m1, nPoints), ys, 2, 1, nm);
    var bic2 := BIC(Prefix(m2, nPoints), ys, 2, 1, nm);
    BicWithUnitCount(Prefix(m1, nPoints), ys, 2, 2, nm);
    BicWithUnitCount(Prefix(m2, nPoints), ys, 2, 2, nm);

    var bicMin := Min2(bic1, bic2);
    RelLikelihoodOfBest(bic1, bic2, nm);
    var rel1 := nm.exp(RelLikelihoodExponent(bic1, bicMin));
    var rel2 := nm.exp(RelLikelihoodExponent(bic2, bicMin));
    return Success(MsdFitResults(ModelFit(params1, errors1, bic1, rel1), ModelFit(params2, errors2, bic2, rel2), nPoints));
  }

  class Track {
    const x: seq<real>
    const y: seq<real>
    const t: seq<real>
    /** The cached MSD curve and its standard errors (`None` until computed). */
    var msd: Option<seq<real>>
    var msdError: Option<seq<real>>
    var msdAnalysisResults: MsdResults
    var sdAnalysisResults: SdResults

    /** The MSD curve and its errors are cached together and have equal lengths. */
    predicate Valid()
      reads this
    {
      && msd.Some? == msdError.Some?
      && (msd.Some? ==> |msd.value| == |msdError.value|)
    }

    constructor(x: seq<real>, y: seq<real>, t: seq<real>)
      requires |x| == |y|
      ensures this.x == x && this.y == y && this.t == t
      ensures msd == None && msdError == None
      ensures msdAnalysisResults == MsdCleared && sdAnalysisResults == SdCleared
      ensures Valid()
    {
      this.x := x;
      this.y := y;
      this.t := t;
      msd := None;
      msdError := None;
      msdAnalysisResults := MsdCleared;
      sdAnalysisResults := SdCleared;
    }

    /** `calculateMSD(N, numWorkers)`: fills an `N - 3` slot array, slot `i - 1` with lag `i`,
        either from the parallel `MSD_loop` results (which receive the coordinates swapped) or
        from the sequential loop, and caches both arrays. */
    method CalculateMSD(n: Option<int>, numWorkers: Option<int>, cpuCount: int, nm: Numerics) returns (r: Outcome<TrackError>)
      requires |x| == |y| && Sane(nm)
      modifies this
      ensures var N := if n.Some? then n.value else |x|;
              r.Fail? <==> N < 3 || (N > 3 && N > |x| + 1)
      ensures var N := if n.Some? then n.value else |x|;
              r.Pass? ==> msd == Some(MsdCurve(x, y, N)) && msdError == Some(MsdErrorCurve(x, y, N, nm))
      ensures r.Fail? ==> r.error == MsdSize(if n.Some? then n.value else |x|)
      ensures r.Fail? ==> msd == old(msd) && msdError == old(msdError)
      ensures msdAnalysisResults == old(msdAnalysisResults) && sdAnalysisResults == old(sdAnalysisResults)
      ensures old(Valid()) ==> Valid()
    {
      var N := if n.Some? then n.value else |x|;
      if N < 3 {
        return Fail(MsdSize(N));
      }
      if N > 3 && N > |x| + 1 {
        return Fail(MsdSize(N));
      }
      var workers := if numWorkers.Some? then numWorkers.value else cpuCount;
      var curve, errors;
      if workers > 1 {
        curve, errors := ParallelMsd(x, y, N, nm);
      } else {
        curve, errors := SequentialMsd(x, y, N, nm);
      }
      msd := Some(curve);
      msdError := Some(errors);
      return Pass;
    }
    /** `delete_msd_analysis_results`. */
    method DeleteMsdAnalysisResults()
      modifies this
      ensures msdAnalysisResults == MsdCleared
      ensures msd == old(msd) && msdError == old(msdError) && sdAnalysisResults == old(sdAnalysisResults)
    {
      msdAnalysisResults := MsdCleared;
    }

    /** `get_msd_analysis_results`: the record as it stands; nothing changes. */
    method GetMsdAnalysisResults() returns (r: MsdResults)
      ensures r == msdAnalysisResults
    {
      r := msdAnalysisResults;
    }

    /** `msd_analysis`: computes the MSD if it is not cached yet, picks the fit range, fits the
        linear and the power-law model to the first `n_points` MSD values, and records the
        result. `warned` tells whether the "too many points" warning was issued. */
    method MsdAnalysis(fraction: real, nFit: Option<int>, maxTime: Option<real>, numWorkers: Option<int>, cpuCount: int,
                       initialGuesses: Guesses, fit: CurveFit, nm: Numerics)
      returns (r: Result<MsdResults, TrackError>, warned: bool)
      requires |x| == |y| && Valid() && Sane(nm) && KeepsArity(fit)
      modifies this
      ensures Valid()
      ensures old(msd).Some? ==> msd == old(msd) && msdError == old(msdError)
      ensures old(msd).None? && msd.Some? ==>
                |x| >= 3 && msd == Some(MsdCurve(x, y, |x|)) && msdError == Some(MsdErrorCurve(x, y, |x|, nm))
      ensures r.Failure? ==> msdAnalysisResults == old(msdAnalysisResults)
      ensures sdAnalysisResults == old(sdAnalysisResults)
      ensures msd.None? ==> old(msd).None? && |x| < 3 && r == Failure(MsdSize(|x|))
      ensures msd.Some? ==>
        var points := MsdFitPoints(fraction, nFit, maxTime, TimeAxis(t), |msd.value|);
        && (points.Failure? ==> r == Failure(FitRangeFailed(points.error)))
        && (points.Success? && msdError.Some? ==>
              var cause := FitMsdError(TimeAxis(t), msd.value, msdError.value, points.value.n, UpdateGuesses(initialGuesses), fit);
              && (r.Failure? <==> cause.Some?)
              && (r.Failure? ==> r.error == cause.value))
      ensures r.Success? ==>
        && msd.Some? && r.value == msdAnalysisResults
        && msdAnalysisResults.analyzed && msdAnalysisResults.results.Some?
        && MsdFitPoints(fraction, nFit, maxTime, TimeAxis(t), |msd.value|)
             == Success(FitPoints(msdAnalysisResults.results.value.nPoints, warned))
        && FitsCurve(TimeAxis(t), msd.value, msdAnalysisResults.results.value, nm)
        && msdError.Some?
        && FittedFrom(TimeAxis(t), msd.value, msdError.value, UpdateGuesses(initialGuesses), fit,
                      msdAnalysisResults.results.value, nm)
    {
      warned := false;
      var p0 := UpdateGuesses(initialGuesses);
      if msd.None? {
        var computed := CalculateMSD(None, numWorkers, cpuCount, nm);
        if computed.Fail? {
          return Failure(computed.error), warned;
        }
      }
      var T := TimeAxis(t);
      var points := MsdFitPoints(fraction, nFit, maxTime, T, |msd.value|);
      if points.Failure? {
        return Failure(FitRangeFailed(points.error)), warned;
      }
      warned := points.value.warn;
      var fitted := FitMsd(T, msd.value, msdError.value, points.value.n, p0, fit, nm);
      if fitted.Failure? {
        return Failure(fitted.error), warned;
      }
      msdAnalysisResults := MsdResults(true, Some(fitted.value));
      return Success(msdAnalysisResults), warned;
    }

    /** `delete_sd_analysis_results`. */
    method DeleteSdAnalysisResults()
      modifies this
      ensures sdAnalysisResults == SdCleared
      ensures msd == old(msd) && msdError == old(msdError) && msdAnalysisResults == old(msdAnalysisResults)
    {
      sdAnalysisResults := SdCleared;
    }

    /** `get_sd_analysis_results`: the record as it stands; nothing changes. */
    method GetSdAnalysisResults() returns (r: SdResults)
      ensures r == sdAnalysisResults
    {
      r := sdAnalysisResults;
    }

    /** `sd_analysis`: one apparent diffusion coefficient per lag of `J`, in `J`'s order, from
        the time step `TimeStep(t)`; then the categorisation, and the record is written. */
    method SdAnalysis(binsizeNm: real, lags: seq<nat>, fit: RayleighFit, categorize: Categorize, nm: Numerics)
      returns (r: Result<SdResults, TrackError>)
      requires |x| == |y|
      modifies this
      ensures msd == old(msd) && msdError == old(msdError) && msdAnalysisResults == old(msdAnalysisResults)
      ensures r.Failure? ==> sdAnalysisResults == old(sdAnalysisResults)
      ensures |t| < 2 ==> r == Failure(SdFailed(TrackTooShort))
      ensures r.Success? ==>
        && |t| >= 2 && r.value == sdAnalysisResults
        && sdAnalysisResults.analyzed
        && sdAnalysisResults.lags == Some(lags)
        && Collect(LagResults(x, y, TimeStep(t), Binsize(binsizeNm), lags, fit, nm)).Success?
        && var lists := Collect(LagResults(x, y, TimeStep(t), Binsize(binsizeNm), lags, fit, nm)).value;
           && sdAnalysisResults.dapp == Some(lists.0)
           && sdAnalysisResults.model == categorize(lists.0, lags, lists.1).0
           && sdAnalysisResults.results == Some(categorize(lists.0, lags, lists.1).1)
      ensures r.Failure? && |t| >= 2 ==>
        && Collect(LagResults(x, y, TimeStep(t), Binsize(binsizeNm), lags, fit, nm)).Failure?
        && r.error == SdFailed(Collect(LagResults(x, y, TimeStep(t), Binsize(binsizeNm), lags, fit, nm)).error)
    {
      if |t| < 2 {
        return Failure(SdFailed(TrackTooShort));
      }
      var sweep := LagSweep(x, y, TimeStep(t), Binsize(binsizeNm), lags, fit, nm);
      if sweep.Failure? {
        return Failure(SdFailed(sweep.error));
      }
      var category := categorize(sweep.value.0, lags, sweep.value.1);
      sdAnalysisResults := SdResults(true, category.0, Some(sweep.value.0), Some(lags), Some(category.1));
      return Success(sdAnalysisResults);
    }
  }
}
