/** Fit-range selection and initial guesses: how many leading points of a curve a fit uses
    (from a fraction, an explicit count or a maximum time), the checks on that count, and how
    caller-supplied initial guesses override the defaults slot by slot. */
module FitRange {
  import opened Wrappers
  import opened Numerics
  import opened Models

  /** The number of leading points to fit and whether the "too many points" warning fires. */
  datatype FitPoints = FitPoints(n: int, warn: bool)

  datatype FitRangeError =
    | TooFewPoints(n: int)   // AssertionError "n_fit_points=... is not enough"
    | NoTimeBelowMax         // IndexError: no time point lies below fit_max_time

  /** The advisory cap `int(0.25 * N)`. */
  function QuarterCap(count: nat): int
  {
    Trunc(0.25 * count as real)
  }

  /** `int(0.25 * N)` is the integer quarter `N / 4`. */
  lemma QuarterCapIsQuarter(count: nat)
    ensures QuarterCap(count) == count / 4
  {
    var q := count / 4;
    assert count == 4 * q + count % 4;
    assert 0.25 * count as real == q as real + 0.25 * (count % 4) as real;
  }

  /** `assert n_points >= 2` followed by `if n_points > int(0.25 * N): warnings.warn(...)`. */
  function CheckFitPoints(n: int, count: nat): (r: Result<FitPoints, FitRangeError>)
    ensures r.Success? <==> n >= 2
    ensures r.Failure? ==> r.error == TooFewPoints(n)
    ensures r.Success? ==> r.value.n == n && (r.value.warn <==> n > count / 4)
  {
    QuarterCapIsQuarter(count);
    if n < 2 then Failure(TooFewPoints(n))
    else Success(FitPoints(n, n > QuarterCap(count)))
  }

  /** `Track.classicalMSDAnalysis`: an explicit `nFitPoints` wins over
      `int(fractionFitPoints * N)`. */
  function ClassicalFitPoints(fraction: real, nFit: Option<int>, count: nat): (r: Result<FitPoints, FitRangeError>)
    ensures nFit.Some? ==> r == CheckFitPoints(nFit.value, count)
    ensures nFit.None? ==> r == CheckFitPoints(Trunc(fraction * count as real), count)
  {
    var n := if nFit.None? then Trunc(fraction * count as real) else nFit.value;
    CheckFitPoints(n, count)
  }

  /** `adc_analysis`: here `nFitPoints` is a FRACTION of N, defaulting to 0.25. */
  function AdcFitPoints(nFit: Option<real>, count: nat): (r: Result<FitPoints, FitRangeError>)
    ensures nFit.None? ==> r == CheckFitPoints(count / 4, count)
    ensures nFit.Some? ==> r == CheckFitPoints(Trunc(nFit.value * count as real), count)
  {
    QuarterCapIsQuarter(count);
    var n := if nFit.None? then QuarterCap(count) else Trunc(nFit.value * count as real);
    CheckFitPoints(n, count)
  }

  /** With the default fraction the fit never warns, in either variant. */
  lemma DefaultsNeverWarn(count: nat)
    ensures AdcFitPoints(None, count).Success? ==> !AdcFitPoints(None, count).value.warn
    ensures ClassicalFitPoints(0.25, None, count).Success? ==> !ClassicalFitPoints(0.25, None, count).value.warn
  {
    QuarterCapIsQuarter(count);
  }

  /** `int(np.argwhere(T < fit_max_time)[-1])`: the LAST index whose time lies below the cut. */
  function LastIndexBelow(T: seq<real>, maxTime: real): (r: Option<nat>)
    ensures r.Some? ==> r.value < |T| && T[r.value] < maxTime
    ensures r.Some? ==> forall k :: r.value < k < |T| ==> T[k] >= maxTime
    ensures r.None? <==> forall k :: 0 <= k < |T| ==> T[k] >= maxTime
  {
    if |T| == 0 then None
    else if T[|T| - 1] < maxTime then Some(|T| - 1)
    else LastIndexBelow(T[..|T| - 1], maxTime)
  }

  /** `msd_analysis`: `fit_max_time` beats `n_fit_points`, which beats `fraction_fit_points`. */
  function MsdFitPoints(fraction: real, nFit: Option<int>, maxTime: Option<real>, T: seq<real>, count: nat): (r: Result<FitPoints, FitRangeError>)
    ensures maxTime.Some? && LastIndexBelow(T, maxTime.value).None? ==> r == Failure(NoTimeBelowMax)
    ensures maxTime.Some? && LastIndexBelow(T, maxTime.value).Some? ==>
              r == CheckFitPoints(LastIndexBelow(T, maxTime.value).value, count)
    ensures maxTime.None? ==> r == ClassicalFitPoints(fraction, nFit, count)
    ensures r.Success? ==> r.value.n >= 2
  {
    if maxTime.Some? then
      match LastIndexBelow(T, maxTime.value)
      case None => Failure(NoTimeBelowMax)
      case Some(k) => CheckFitPoints(k, count)
    else if nFit.Some? then CheckFitPoints(nFit.value, count)
    else CheckFitPoints(Trunc(fraction * count as real), count)
  }

  /** On an increasing time axis, the count that `fit_max_time` selects is the index of the
      last time below the cut, so the fitted prefix `T[0:n_points]` holds every time below the
      cut except that last one. */
  lemma {:induction false} MaxTimeDropsLastPoint(T: seq<real>, maxTime: real, k: nat)
    requires forall i, j :: 0 <= i < j < |T| ==> T[i] < T[j]
    requires LastIndexBelow(T, maxTime) == Some(k)
    ensures forall i :: 0 <= i < |T| ==> (T[i] < maxTime <==> i <= k)
    ensures |Prefix(T, k)| == k && T[k] !in Prefix(T, k)
  {
    forall i | 0 <= i < |T| ensures T[i] < maxTime <==> i <= k {
      if i < k { assert T[i] < T[k]; }
    }
    assert forall i :: 0 <= i < k ==> Prefix(T, k)[i] == T[i] < T[k];
  }

  /** Python's `s[0:n]` for `n >= 0`: at most the first n elements. */
  function Prefix<T>(s: seq<T>, n: int): (r: seq<T>)
    requires n >= 0
    ensures |r| == if n <= |s| then n else |s|
    ensures r <= s
  {
    if n <= |s| then s[..n] else s
  }

  /** An oversized fraction (110 % of a 40-point curve) still gives a valid, warned fit over
      all 40 points, never more. */
  lemma OversizedFraction(T: seq<real>)
    requires |T| == 40
    ensures ClassicalFitPoints(1.1, None, 40) == Success(FitPoints(44, true))
    ensures Prefix(T, 44) == T
  {
    assert Trunc(1.1 * 40.0) == 44;
  }

  /** Initial guesses as keyed lists of optional slots: `None` keeps the default. */
  type Guesses = map<string, seq<Option<real>>>

  /** `p0 = {"model1": 2 * [None], "model2": 3 * [None]}; p0.update(initial_guesses)`: a caller's
      key replaces the whole default list, other keys keep theirs. */
  function UpdateGuesses(user: Guesses): (p0: Guesses)
    ensures p0.Keys == user.Keys + {"model1", "model2"}
    ensures forall key :: key in user ==> p0[key] == user[key]
    ensures "model1" !in user ==> p0["model1"] == [None, None]
    ensures "model2" !in user ==> p0["model2"] == [None, None, None]
  {
    map["model1" := [None, None], "model2" := [None, None, None]] + user
  }

  /** The defaults overridden by every non-`None` slot. */
  function Overlay(defaults: seq<real>, slots: seq<Option<real>>): (r: seq<real>)
    requires |slots| >= |defaults|
    ensures |r| == |defaults|
    ensures forall i :: 0 <= i < |r| && slots[i].None? ==> r[i] == defaults[i]
    ensures forall i :: 0 <= i < |r| && slots[i].Some? ==> r[i] == slots[i].value
  {
    seq(|defaults|, i requires 0 <= i < |defaults| => if slots[i].Some? then slots[i].value else defaults[i])
  }

  datatype GuessError = SlotMissing(i: nat)   // IndexError on p0[key][i]

  /** The loop `for i in range(len(p0_m)): if not p0[key][i] is None: p0_m[i] = p0[key][i]`. */
  method MergeGuess(defaults: seq<real>, slots: seq<Option<real>>) returns (r: Result<seq<real>, GuessError>)
    ensures |slots| >= |defaults| ==> r == Success(Overlay(defaults, slots))
    ensures |slots| < |defaults| ==> r == Failure(SlotMissing(|slots|))
  {
    var p := defaults;
    var i := 0;
    while i < |p|
      invariant 0 <= i <= |p| == |defaults|
      invariant i <= |slots|
      invariant forall k :: 0 <= k < i ==> p[k] == if slots[k].Some? then slots[k].value else defaults[k]
      invariant forall k :: i <= k < |p| ==> p[k] == defaults[k]
    {
      if i >= |slots| {
        return Failure(SlotMissing(i));
      }
      if slots[i].Some? {
        p := p[i := slots[i].value];
      }
      i := i + 1;
    }
    assert p == Overlay(defaults, slots);
    return Success(p);
  }

  /** An all-`None` list keeps the defaults; a list without `None` replaces them entirely;
      merging twice with the same slots changes nothing more. */
  lemma OverlayLaws(defaults: seq<real>, slots: seq<Option<real>>)
    requires |slots| == |defaults|
    ensures (forall i :: 0 <= i < |slots| ==> slots[i].None?) ==> Overlay(defaults, slots) == defaults
    ensures (forall i :: 0 <= i < |slots| ==> slots[i].Some?) ==>
              Overlay(defaults, slots) == seq(|slots|, i requires 0 <= i < |slots| => slots[i].value)
    ensures Overlay(Overlay(defaults, slots), slots) == Overlay(defaults, slots)
  {
  }

  /** Default of `msd_analysis` for the linear model: `[0.0, 0.0]`. */
  const LinearDefault: seq<real> := [0.0, 0.0]

  /** The power-law model's default guess AS WRITTEN in `msd_analysis`: `[D, 1.0, delta2]` from
      the linear fit `reg1 = [D, delta2]`, although `ModelPower` takes `(D, delta2, alpha)`, so
      the fitted offset lands in the exponent slot and the offset slot gets 1.0. */
  function Model2DefaultAsWritten(reg1: seq<real>): (g: seq<real>)
    requires |reg1| == 2
    ensures |g| == 3 && g[0] == reg1[0]
    ensures g[1] == 1.0 && g[2] == reg1[1]
  {
    [reg1[0], 1.0, reg1[1]]
  }

  /** With `reg1 = [0, 5]` the linear fit is the constant 10, yet the as-written guess starts the
      power-law fit at the constant 2, whatever the power function is. */
  lemma Model2DefaultAsWrittenMisplaces(t: real, nm: Numerics)
    ensures var g := Model2DefaultAsWritten([0.0, 5.0]);
            Power(t, g[0], g[1], g[2], nm) == 2.0 && Linear(t, 0.0, 5.0) == 10.0
  {
  }

  /** The power-law default the analysis intends: keep the linear fit's `D` and `delta2`, and
      start the exponent at 1 (the order `analysis.py` uses). */
  function Model2Default(reg1: seq<real>): (g: seq<real>)
    requires |reg1| == 2
    ensures |g| == 3 && g[0] == reg1[0] && g[1] == reg1[1] && g[2] == 1.0
  {
    [reg1[0], reg1[1], 1.0]
  }

  /** The intended default starts the power-law fit exactly on the linear fit's curve. */
  lemma Model2DefaultContinuesLinear(reg1: seq<real>, t: real, nm: Numerics)
    requires |reg1| == 2 && Sane(nm)
    ensures var g := Model2Default(reg1);
            Power(t, g[0], g[1], g[2], nm) == Linear(t, reg1[0], reg1[1])
  {
  }
}
