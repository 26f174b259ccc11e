/** The per-lag loop of the squared-displacement (SD) analysis: for every lag `j` of the list
    `J`, the sorted squared displacements are turned into distances, binned, fitted with a
    Rayleigh distribution, and the fitted width gives one apparent diffusion coefficient. */
module SdSweep {
  import opened Wrappers
  import opened Numerics
  import opened Displacement

  /** A float result that may not be finite: the quotient by a zero time lag is an IEEE
      infinity or NaN, not an exception. */
  datatype Value = Finite(v: real) | NonFinite

  datatype SdError =
    | TrackTooShort            // IndexError on t[1]: fewer than two time points
    | NoDisplacements(j: nat)  // IndexError on x_fit[-1]: no pair at lag j
    | BinCount(j: nat)         // int() of an infinite or NaN bin count, or fewer than one bin
    | RayleighFitFailed(j: nat) // curve_fit raised

  /** The Rayleigh fit of the histogram of `x_fit` with `bins` bins, from the initial guess
      `p0`: `Some((sigma, pcov[0][0]))`, or `None` when curve_fit fails. */
  type RayleighFit = (seq<real>, int, real) -> Option<(real, real)>

  /** The apparent diffusion coefficient of one lag and its error. */
  datatype LagResult = LagResult(dapp: Value, error: Value)

  /** `binsize = binsize_nm * 1e-9`: nanometres to metres. */
  function Binsize(binsizeNm: real): real
  {
    binsizeNm * 0.000000001
  }

  /** `x_fit[-1] - x_fit[0]` with `x_fit = np.sqrt(sd)`: the histogram range of one lag. */
  function Spread(sd: seq<real>, nm: Numerics): real
    requires |sd| > 0
  {
    var xFit := Roots(sd, nm);
    xFit[|xFit| - 1] - xFit[0]
  }

  /** One iteration of the loop over `J` in `sd_analysis`, given `sd = _calculate_sd_at(j)`. */
  function LagAnalysis(sd: seq<real>, j: nat, dt: real, binsize: real, fit: RayleighFit, nm: Numerics): (r: Result<LagResult, SdError>)
    ensures |sd| == 0 <==> r == Failure(NoDisplacements(j))
    ensures |sd| > 0 && binsize == 0.0 ==> r == Failure(BinCount(j))
    ensures |sd| > 0 && binsize != 0.0 && Ceil(Spread(sd, nm) / binsize) < 1 ==> r == Failure(BinCount(j))
    ensures |sd| > 0 && binsize != 0.0 && Ceil(Spread(sd, nm) / binsize) >= 1
            && fit(Roots(sd, nm), Ceil(Spread(sd, nm) / binsize), Spread(sd, nm)).None?
            ==> r == Failure(RayleighFitFailed(j))
    ensures r.Success? <==>
              && |sd| > 0 && binsize != 0.0 && Ceil(Spread(sd, nm) / binsize) >= 1
              && fit(Roots(sd, nm), Ceil(Spread(sd, nm) / binsize), Spread(sd, nm)).Some?
    ensures r.Failure? ==> !r.error.TrackTooShort? && r.error.j == j
    ensures r.Success? ==> (r.value.dapp.Finite? <==> j as real * dt != 0.0)
    ensures r.Success? ==> (r.value.error.Finite? <==> j as real * dt != 0.0)
  {
    if |sd| == 0 then Failure(NoDisplacements(j))
    else
      var xFit := Roots(sd, nm);
      var spread := Spread(sd, nm);
      if binsize == 0.0 then Failure(BinCount(j))
      else
        var bins := Ceil(spread / binsize);
        if bins < 1 then Failure(BinCount(j))
        else
          match fit(xFit, bins, spread)
          case None => Failure(RayleighFitFailed(j))
          case Some(popt) =>
            var tLag := j as real * dt;
            if tLag == 0.0 then Success(LagResult(NonFinite, NonFinite))
            else Success(LagResult(Finite(Square(popt.0) / (2.0 * tLag)),
                                   Finite(Square(nm.sqrt(popt.1)) / (2.0 * tLag))))
  }

  /** The result of every lag of `lags`, in order: `LagAnalysis` of `_calculate_sd_at(j)`. */
  function LagResults(x: seq<real>, y: seq<real>, dt: real, binsize: real, lags: seq<nat>, fit: RayleighFit, nm: Numerics)
    : (results: seq<Result<LagResult, SdError>>)
    requires |x| == |y|
    ensures |results| == |lags|
  {
    seq(|lags|, k requires 0 <= k < |lags| => LagAnalysis(SD(x, y, lags[k]), lags[k], dt, binsize, fit, nm))
  }

  /** The outcome of the loop `for j in J:` of `sd_analysis`, given each lag's result: the
      `dapp` and error lists in lag order, or the error of the first lag that fails. */
  function Collect(results: seq<Result<LagResult, SdError>>): (r: Result<(seq<Value>, seq<Value>), SdError>)
    ensures r.Success? ==> |r.value.0| == |results| && |r.value.1| == |results|
  {
    if |results| == 0 then Success(([], []))
    else
      match Collect(results[..|results| - 1])
      case Failure(e) => Failure(e)
      case Success(lists) =>
        match results[|results| - 1]
        case Failure(e) => Failure(e)
        case Success(lag) => Success((lists.0 + [lag.dapp], lists.1 + [lag.error]))
  }

  /** One more lag: collecting the first `k + 1` results extends the first `k` by result `k`,
      or fails with its error. */
  lemma CollectExtend(results: seq<Result<LagResult, SdError>>, k: nat)
    requires k < |results| && Collect(results[..k]).Success?
    ensures var prev := Collect(results[..k]).value;
            Collect(results[..k + 1]) ==
              match results[k]
              case Failure(e) => Failure(e)
              case Success(lag) => Success((prev.0 + [lag.dapp], prev.1 + [lag.error]))
  {
    assert results[..k + 1][..k] == results[..k];
  }

  /** Once a prefix of the results fails, collecting all of them fails with the same error. */
  lemma {:induction false} CollectFailurePersists(results: seq<Result<LagResult, SdError>>, k: nat)
    requires k <= |results| && Collect(results[..k]).Failure?
    ensures Collect(results) == Collect(results[..k])
    decreases |results| - k
  {
    if k < |results| {
      assert results[..k + 1][..k] == results[..k];
      CollectFailurePersists(results, k + 1);
    } else {
      assert results[..k] == results;
    }
  }

  /** Collecting succeeds exactly when every lag does, and then lists each lag's result at the
      lag's position; otherwise it fails with the error of the first lag that fails. */
  lemma {:induction false} CollectCharacterised(results: seq<Result<LagResult, SdError>>)
    ensures var r := Collect(results);
            && (r.Success? <==> forall k :: 0 <= k < |results| ==> results[k].Success?)
            && (r.Success? ==> forall k :: 0 <= k < |results| ==>
                  results[k] == Success(LagResult(r.value.0[k], r.value.1[k])))
            && (r.Failure? ==>
                  exists k ::
                    && 0 <= k < |results|
                    && results[k] == Failure(r.error)
                    && forall i :: 0 <= i < k ==> results[i].Success?)
  {
    if |results| > 0 {
      var last := |results| - 1;
      var init := results[..last];
      CollectCharacterised(init);
      assert forall k :: 0 <= k < last ==> init[k] == results[k];
      var p := Collect(init);
      if p.Failure? {
        var k :| 0 <= k < last && init[k] == Failure(p.error) && forall i :: 0 <= i < k ==> init[i].Success?;
        assert results[k].Failure?;
      } else if results[last].Success? {
        var r := Collect(results);
        assert r.value.0 == p.value.0 + [results[last].value.dapp];
        assert r.value.1 == p.value.1 + [results[last].value.error];
        forall k | 0 <= k < |results| ensures results[k] == Success(LagResult(r.value.0[k], r.value.1[k])) {
          if k < last {
            assert r.value.0[k] == p.value.0[k] && r.value.1[k] == p.value.1[k];
          }
        }
      }
    }
  }

  /** The loop `for j in J:` of `sd_analysis`: computes each lag's SD series, appends one `dapp`
      and one error per lag; the first lag that fails aborts the whole analysis. */
  method LagSweep(x: seq<real>, y: seq<real>, dt: real, binsize: real, lags: seq<nat>, fit: RayleighFit, nm: Numerics)
    returns (r: Result<(seq<Value>, seq<Value>), SdError>)
    requires |x| == |y|
    ensures r == Collect(LagResults(x, y, dt, binsize, lags, fit, nm))
  {
    ghost var results := LagResults(x, y, dt, binsize, lags, fit, nm);
    var dappList: seq<Value> := [];
    var errList: seq<Value> := [];
    var k := 0;
    while k < |lags|
      invariant 0 <= k <= |lags|
      invariant Collect(results[..k]) == Success((dappList, errList))
    {
      var sd := SD(x, y, lags[k]);
      var lag := LagAnalysis(sd, lags[k], dt, binsize, fit, nm);
      assert lag == results[k];
      CollectExtend(results, k);
      if lag.Failure? {
        CollectFailurePersists(results, k + 1);
        return Failure(lag.error);
      }
      dappList := dappList + [lag.value.dapp];
      errList := errList + [lag.value.error];
      k := k + 1;
    }
    assert results[..k] == results;
    return Success((dappList, errList));
  }

  /** The SD series is sorted, so the spread of the distances is never negative; with a positive
      bin size the bin count is never negative either, and it falls below one (an error) exactly
      when every displacement of the lag has the same length. */
  lemma BinCountNonNegative(x: seq<real>, y: seq<real>, j: nat, binsize: real, nm: Numerics)
    requires |x| == |y| && j + 1 < |x| && binsize > 0.0 && Sane(nm)
    ensures var spread := Spread(SD(x, y, j), nm);
            && spread >= 0.0
            && Ceil(spread / binsize) >= 0
            && (Ceil(spread / binsize) < 1 <==> spread == 0.0)
  {
    var sd := SD(x, y, j);
    RootsSpread(sd, nm);
    CeilOfQuotient(Spread(sd, nm), binsize);
  }

  /** The distances of a sorted, non-empty series of squared displacements span a
      non-negative range. */
  lemma RootsSpread(sd: seq<real>, nm: Numerics)
    requires |sd| > 0 && Sorted(sd) && NonNegative(sd) && Sane(nm)
    ensures Roots(sd, nm)[|sd| - 1] - Roots(sd, nm)[0] >= 0.0
  {
    assert 0.0 <= sd[0] <= sd[|sd| - 1];
    assert nm.sqrt(sd[0]) <= nm.sqrt(sd[|sd| - 1]);
  }

  /** A non-negative spread over a positive bin size gives a non-negative bin count, below one
      exactly for a zero spread. */
  lemma CeilOfQuotient(spread: real, binsize: real)
    requires spread >= 0.0 && binsize > 0.0
    ensures Ceil(spread / binsize) >= 0
    ensures Ceil(spread / binsize) < 1 <==> spread == 0.0
  {
    assert spread / binsize >= 0.0;
    if spread > 0.0 {
      assert spread / binsize > 0.0;
    }
  }

  /** For a positive time step and a positive lag, the apparent diffusion coefficient
      `sigma^2 / (2 j dt)` and its error are finite and never negative. */
  lemma DappNonNegative(sd: seq<real>, dt: real, binsize: real, j: nat, fit: RayleighFit, nm: Numerics)
    requires dt > 0.0 && j >= 1
    requires LagAnalysis(sd, j, dt, binsize, fit, nm).Success?
    ensures var lag := LagAnalysis(sd, j, dt, binsize, fit, nm).value;
            lag.dapp.Finite? && lag.dapp.v >= 0.0 && lag.error.Finite? && lag.error.v >= 0.0
  {
    var tLag := j as real * dt;
    assert tLag > 0.0 by { PositiveProduct(j as real, dt); }
  }

  lemma PositiveProduct(a: real, b: real)
    requires a >= 1.0 && b > 0.0
    ensures a * b > 0.0
  {
  }

  /** A zero time step (two equal first time stamps) makes every lag's coefficient non-finite. */
  lemma ZeroStepIsNonFinite(sd: seq<real>, binsize: real, j: nat, fit: RayleighFit, nm: Numerics)
    requires LagAnalysis(sd, j, 0.0, binsize, fit, nm).Success?
    ensures LagAnalysis(sd, j, 0.0, binsize, fit, nm).value == LagResult(NonFinite, NonFinite)
  {
  }
}
