/** Ensemble averaging (`smartAveraging`): after the ADC analysis has put every track into a
    category, the tracks of each category have their MSD and apparent-diffusion curves summed
    element by element and divided by the category's size, and the share of each category among
    the classified tracks is reported. */
module Averaging {
  import opened Wrappers

  datatype AveragingError =
    | NoTracks                   // IndexError on tracks[0]
    | NegativeCurveLength(n: int) // np.zeros(track_length - 3) with a negative size
    | ModelListLength            // "Track list and model list do not have the same length!"
    | MsdListLength              // "Track list and MSD list do not have the same length!"
    | DappListLength             // "Track list and D_app list do not have the same length!"
    | TrackLength(k: nat)        // "Encountered track with incorrect track length!"
    | MsdLength(k: nat)          // "Encountered MSD with incorrect length!"
    | DappLength(k: nat)         // "Encountered D_app with incorrect length!"
    | InvalidModel(k: nat)       // "Invalid model name encountered: ..."
    | NothingClassified          // ZeroDivisionError in counter / counter_sum

  /** One category's result: how many tracks it holds, its average curves (`None` for an empty
      category, whose average is undefined), and its share of the classified tracks. */
  datatype Category = Category(count: nat, dappAverage: Option<seq<real>>, msdAverage: Option<seq<real>>, fraction: real)

  datatype Summary = Summary(brownian: Category, confined: Category, hop: Category)

  predicate ValidModel(m: string)
  {
    m == "brownian" || m == "confined" || m == "hop" || m == "unknown"
  }

  /** Number of tracks labelled `name`. */
  function Count(models: seq<string>, name: string): (c: nat)
    ensures c <= |models|
  {
    if |models| == 0 then 0
    else Count(models[..|models| - 1], name) + (if models[|models| - 1] == name then 1 else 0)
  }

  predicate Uniform(curves: seq<seq<real>>, len: nat)
  {
    forall k :: 0 <= k < |curves| ==> |curves[k]| == len
  }

  /** Element-wise sum `a + b` of two curves of equal length. */
  function Add(a: seq<real>, b: seq<real>): seq<real>
    requires |a| == |b|
  {
    seq(|a|, i requires 0 <= i < |a| => a[i] + b[i])
  }

  /** Element-wise `a / n`. */
  function Scale(a: seq<real>, n: nat): seq<real>
    requires n > 0
  {
    seq(|a|, i requires 0 <= i < |a| => a[i] / n as real)
  }

  function Zeros(len: nat): seq<real>
  {
    seq(len, i => 0.0)
  }

  /** The element-wise sum of the curves of the tracks labelled `name`. */
  function CurveSum(curves: seq<seq<real>>, models: seq<string>, name: string, len: nat): (s: seq<real>)
    requires |curves| == |models| && Uniform(curves, len)
    ensures |s| == len
  {
    if |curves| == 0 then Zeros(len)
    else
      var n := |curves| - 1;
      var rest := CurveSum(curves[..n], models[..n], name, len);
      if models[n] == name then Add(rest, curves[n]) else rest
  }

  /** The first track, at or after `k`, whose track, MSD or D_app length is wrong, reported in
      that order. */
  function LengthError(tracks: seq<seq<real>>, msd: seq<seq<real>>, dapp: seq<seq<real>>, len: nat, k: nat): (e: Option<AveragingError>)
    requires |msd| == |tracks| && |dapp| == |tracks| && k <= |tracks|
    ensures e.None? <==> forall i :: k <= i < |tracks| ==> |tracks[i]| == len + 3 && |msd[i]| == len && |dapp[i]| == len
    ensures e.Some? ==> e.value.TrackLength? || e.value.MsdLength? || e.value.DappLength?
    decreases |tracks| - k
  {
    if k == |tracks| then None
    else if |tracks[k]| != len + 3 then Some(TrackLength(k))
    else if |msd[k]| != len then Some(MsdLength(k))
    else if |dapp[k]| != len then Some(DappLength(k))
    else LengthError(tracks, msd, dapp, len, k + 1)
  }

  /** The first index, at or after `k`, whose model name is not one of the four allowed. */
  function InvalidModelAt(models: seq<string>, k: nat): (e: Option<nat>)
    requires k <= |models|
    ensures e.None? <==> forall i :: k <= i < |models| ==> ValidModel(models[i])
    ensures e.Some? ==> k <= e.value < |models| && !ValidModel(models[e.value])
    ensures e.Some? ==> forall i :: k <= i < e.value ==> ValidModel(models[i])
    decreases |models| - k
  {
    if k == |models| then None
    else if !ValidModel(models[k]) then Some(k)
    else InvalidModelAt(models, k + 1)
  }

  /** What the counting pass accumulates for one label: the number of tracks and the
      element-wise sums of their D_app and MSD curves. */
  datatype Sums = Sums(count: nat, dappSum: seq<real>, msdSum: seq<real>)

  /** The accumulated sums of the tracks labelled `name`. */
  function CategorySums(msd: seq<seq<real>>, dapp: seq<seq<real>>, models: seq<string>, len: nat, name: string): (s: Sums)
    requires |msd| == |models| && |dapp| == |models| && Uniform(msd, len) && Uniform(dapp, len)
    ensures |s.dappSum| == len && |s.msdSum| == len
  {
    Sums(Count(models, name), CurveSum(dapp, models, name, len), CurveSum(msd, models, name, len))
  }

  /** One more track of the label: `counter += 1`, `D_app_sum += D_app[k]`, `MSD_sum += MSD[k]`. */
  function AddTrack(s: Sums, dappCurve: seq<real>, msdCurve: seq<real>): Sums
    requires |s.dappSum| == |dappCurve| && |s.msdSum| == |msdCurve|
  {
    Sums(s.count + 1, Add(s.dappSum, dappCurve), Add(s.msdSum, msdCurve))
  }

  /** One category's summary from its sums and the classified total. */
  function Summarise(s: Sums, total: nat): (c: Category)
    requires total > 0
  {
    Category(s.count,
             if s.count == 0 then None else Some(Scale(s.dappSum, s.count)),
             if s.count == 0 then None else Some(Scale(s.msdSum, s.count)),
             s.count as real / total as real)
  }

  /** What `smartAveraging` computes, stated without its loops. `tracks[k]` stands for the x
      coordinates of track k, `msd[k]` for its MSD curve `MSD[k][0]`. */
  function Averaged(tracks: seq<seq<real>>, msd: seq<seq<real>>, dapp: seq<seq<real>>, models: seq<string>): (r: Result<Summary, AveragingError>)
    ensures |tracks| == 0 <==> r == Failure(NoTracks)
    ensures r.Failure? && r.error.InvalidModel? ==>
              r.error.k < |models| && !ValidModel(models[r.error.k]) && |models| == |tracks|
    ensures r.Success? ==> r.value.brownian.count + r.value.confined.count + r.value.hop.count > 0
  {
    if |tracks| == 0 then Failure(NoTracks)
    else if |tracks[0]| < 3 then Failure(NegativeCurveLength(|tracks[0]| - 3))
    else if |tracks| != |models| then Failure(ModelListLength)
    else if |tracks| != |msd| then Failure(MsdListLength)
    else if |tracks| != |dapp| then Failure(DappListLength)
    else
      var len := |tracks[0]| - 3;
      match LengthError(tracks, msd, dapp, len, 0)
      case Some(e) => Failure(e)
      case None =>
        match InvalidModelAt(models, 0)
        case Some(k) => Failure(InvalidModel(k))
        case None =>
          if Classified(models) == 0 then Failure(NothingClassified)
          else Success(Tally(msd, dapp, models, len))
  }

  /** Number of tracks in the three categories. */
  function Classified(models: seq<string>): nat
  {
    Count(models, "brownian") + Count(models, "confined") + Count(models, "hop")
  }

  /** The per-category counts, averages and fractions of a validated input. */
  function Tally(msd: seq<seq<real>>, dapp: seq<seq<real>>, models: seq<string>, len: nat): (s: Summary)
    requires |msd| == |models| && |dapp| == |models| && Uniform(msd, len) && Uniform(dapp, len)
    requires Classified(models) > 0
    ensures s.brownian.count == Count(models, "brownian")
    ensures s.confined.count == Count(models, "confined")
    ensures s.hop.count == Count(models, "hop")
  {
    var total := Classified(models);
    Summary(
      Summarise(CategorySums(msd, dapp, models, len, "brownian"), total),
      Summarise(CategorySums(msd, dapp, models, len, "confined"), total),
      Summarise(CategorySums(msd, dapp, models, len, "hop"), total))
  }

  /** `smartAveraging(tracks, MSD, D_app, models)`: validates the inputs, then counts and sums
      category by category in one pass and divides at the end. */
  method SmartAveraging(tracks: seq<seq<real>>, msd: seq<seq<real>>, dapp: seq<seq<real>>, models: seq<string>)
    returns (r: Result<Summary, AveragingError>)
    ensures r == Averaged(tracks, msd, dapp, models)
  {
    if |tracks| == 0 {
      return Failure(NoTracks);
    }
    var trackLength := |tracks[0]|;
    if trackLength < 3 {
      return Failure(NegativeCurveLength(trackLength - 3));
    }
    var len := trackLength - 3;
    if |tracks| != |models| {
      return Failure(ModelListLength);
    }
    if |tracks| != |msd| {
      return Failure(MsdListLength);
    }
    if |tracks| != |dapp| {
      return Failure(DappListLength);
    }

    var lengthError := CheckLengths(tracks, msd, dapp, len);
    if lengthError.Some? {
      return Failure(lengthError.value);
    }

    var brownian, confined, hop := Sums(0, Zeros(len), Zeros(len)), Sums(0, Zeros(len), Zeros(len)), Sums(0, Zeros(len), Zeros(len));
    var k := 0;
    while k < |tracks|
      invariant 0 <= k <= |tracks|
      invariant InvalidModelAt(models, 0) == InvalidModelAt(models, k)
      invariant brownian == CategorySums(msd[..k], dapp[..k], models[..k], len, "brownian")
      invariant confined == CategorySums(msd[..k], dapp[..k], models[..k], len, "confined")
      invariant hop == CategorySums(msd[..k], dapp[..k], models[..k], len, "hop")
    {
      assert InvalidModelAt(models, k) == if ValidModel(models[k]) then InvalidModelAt(models, k + 1) else Some(k);
      CategorySumsStep(msd, dapp, models, len, k, "brownian");
      CategorySumsStep(msd, dapp, models, len, k, "confined");
      CategorySumsStep(msd, dapp, models, len, k, "hop");
      if models[k] == "brownian" {
        brownian := AddTrack(brownian, dapp[k], msd[k]);
      } else if models[k] == "confined" {
        confined := AddTrack(confined, dapp[k], msd[k]);
      } else if models[k] == "hop" {
        hop := AddTrack(hop, dapp[k], msd[k]);
      } else if models[k] != "unknown" {
        return Failure(InvalidModel(k));
      }
      k := k + 1;
    }
    assert models[..k] == models && dapp[..k] == dapp && msd[..k] == msd;

    var counterSum := brownian.count + confined.count + hop.count;
    if counterSum == 0 {
      return Failure(NothingClassified);
    }
    r := Success(Summary(
      Summarise(brownian, counterSum),
      Summarise(confined, counterSum),
      Summarise(hop, counterSum)));
  }

  /** The first loop of `smartAveraging`: every track must have `len + 3` points and every
      MSD and D_app curve `len` values; the first track that does not is reported. */
  method CheckLengths(tracks: seq<seq<real>>, msd: seq<seq<real>>, dapp: seq<seq<real>>, len: nat) returns (e: Option<AveragingError>)
    requires |msd| == |tracks| && |dapp| == |tracks|
    ensures e == LengthError(tracks, msd, dapp, len, 0)
  {
    var k := 0;
    while k < |tracks|
      invariant 0 <= k <= |tracks|
      invariant LengthError(tracks, msd, dapp, len, 0) == LengthError(tracks, msd, dapp, len, k)
    {
      if |tracks[k]| != len + 3 {
        return Some(TrackLength(k));
      }
      if |msd[k]| != len {
        return Some(MsdLength(k));
      }
      if |dapp[k]| != len {
        return Some(DappLength(k));
      }
      k := k + 1;
    }
    return None;
  }

  /** One more track adds its curves to its label's sums and one to its label's count, and
      leaves every other label's sums as they were. */
  lemma CategorySumsStep(msd: seq<seq<real>>, dapp: seq<seq<real>>, models: seq<string>, len: nat, k: nat, name: string)
    requires |msd| == |models| && |dapp| == |models| && Uniform(msd, len) && Uniform(dapp, len) && k < |models|
    ensures CategorySums(msd[..k + 1], dapp[..k + 1], models[..k + 1], len, name) ==
              if models[k] == name then AddTrack(CategorySums(msd[..k], dapp[..k], models[..k], len, name), dapp[k], msd[k])
              else CategorySums(msd[..k], dapp[..k], models[..k], len, name)
  {
    assert models[..k + 1][..k] == models[..k];
    assert dapp[..k + 1][..k] == dapp[..k];
    assert msd[..k + 1][..k] == msd[..k];
  }

  /** A track labelled `name` adds one to that label's count. */
  lemma {:induction false} CountPositive(models: seq<string>, name: string, i: nat)
    requires i < |models| && models[i] == name
    ensures Count(models, name) >= 1
    decreases |models|
  {
    var n := |models| - 1;
    if i < n {
      assert models[..n][i] == name;
      CountPositive(models[..n], name, i);
    }
  }

  /** With valid labels, every track is counted under exactly one of the four labels. */
  lemma {:induction false} CountsPartition(models: seq<string>)
    requires forall i :: 0 <= i < |models| ==> ValidModel(models[i])
    ensures Count(models, "brownian") + Count(models, "confined") + Count(models, "hop")
            + Count(models, "unknown") == |models|
    decreases |models|
  {
    if |models| > 0 {
      var n := |models| - 1;
      assert forall i :: 0 <= i < n ==> models[..n][i] == models[i];
      CountsPartition(models[..n]);
    }
  }

  /** The tracks whose label is `unknown`: none of them is counted in any category. */
  lemma ClassifiedCount(models: seq<string>)
    requires forall i :: 0 <= i < |models| ==> ValidModel(models[i])
    ensures Count(models, "brownian") + Count(models, "confined") + Count(models, "hop")
            == |models| - Count(models, "unknown")
    ensures Count(models, "brownian") + Count(models, "confined") + Count(models, "hop") > 0
            <==> exists i :: 0 <= i < |models| && models[i] != "unknown"
  {
    CountsPartition(models);
    if exists i :: 0 <= i < |models| && models[i] != "unknown" {
      var i :| 0 <= i < |models| && models[i] != "unknown";
      CountPositive(models, models[i], i);
    } else {
      assert forall i :: 0 <= i < |models| ==> models[i] == "unknown";
      UnknownOnly(models);
    }
  }

  lemma {:induction false} UnknownOnly(models: seq<string>)
    requires forall i :: 0 <= i < |models| ==> models[i] == "unknown"
    ensures Count(models, "unknown") == |models|
    decreases |models|
  {
    if |models| > 0 {
      var n := |models| - 1;
      assert forall i :: 0 <= i < n ==> models[..n][i] == models[i];
      UnknownOnly(models[..n]);
    }
  }

  /** `smartAveraging` succeeds exactly when there is a track, the track length is at least 3,
      the four lists are equally long, every curve has the length the first track fixes, every
      label is allowed, and at least one track is not `unknown`. */
  lemma AveragedSucceeds(tracks: seq<seq<real>>, msd: seq<seq<real>>, dapp: seq<seq<real>>, models: seq<string>)
    ensures Averaged(tracks, msd, dapp, models).Success? <==>
      && |tracks| > 0 && |tracks[0]| >= 3
      && |models| == |tracks| && |msd| == |tracks| && |dapp| == |tracks|
      && (forall i :: 0 <= i < |tracks| ==>
            |tracks[i]| == |tracks[0]| && |msd[i]| == |tracks[0]| - 3 && |dapp[i]| == |tracks[0]| - 3)
      && (forall i :: 0 <= i < |models| ==> ValidModel(models[i]))
      && (exists i :: 0 <= i < |models| && models[i] != "unknown")
  {
    if |tracks| > 0 && |tracks[0]| >= 3 && |models| == |tracks| && |msd| == |tracks| && |dapp| == |tracks|
       && forall i :: 0 <= i < |models| ==> ValidModel(models[i]) {
      ClassifiedCount(models);
    }
  }

  /** Shares of a positive total add up to one. */
  lemma SharesSumToOne(a: nat, b: nat, c: nat)
    requires a + b + c > 0
    ensures a as real / (a + b + c) as real + b as real / (a + b + c) as real
            + c as real / (a + b + c) as real == 1.0
  {
    var t := (a + b + c) as real;
    assert a as real / t + b as real / t + c as real / t == (a as real + b as real + c as real) / t;
  }

  /** On success the three counts add up to the number of tracks not labelled `unknown`, and
      the three population fractions add up to one. */
  lemma FractionsSumToOne(tracks: seq<seq<real>>, msd: seq<seq<real>>, dapp: seq<seq<real>>, models: seq<string>)
    requires Averaged(tracks, msd, dapp, models).Success?
    ensures var s := Averaged(tracks, msd, dapp, models).value;
      && s.brownian.count + s.confined.count + s.hop.count == |models| - Count(models, "unknown")
      && s.brownian.fraction + s.confined.fraction + s.hop.fraction == 1.0
  {
    assert |tracks| > 0 && |tracks[0]| >= 3 && |models| == |msd| == |dapp| == |tracks|;
    var len := |tracks[0]| - 3;
    assert LengthError(tracks, msd, dapp, len, 0).None? && InvalidModelAt(models, 0).None?;
    assert Averaged(tracks, msd, dapp, models) == Success(Tally(msd, dapp, models, len));
    ClassifiedCount(models);
    TallyFractionsSumToOne(msd, dapp, models, len);
  }

  lemma TallyFractionsSumToOne(msd: seq<seq<real>>, dapp: seq<seq<real>>, models: seq<string>, len: nat)
    requires |msd| == |models| && |dapp| == |models| && Uniform(msd, len) && Uniform(dapp, len)
    requires Classified(models) > 0
    ensures var s := Tally(msd, dapp, models, len);
            s.brownian.fraction + s.confined.fraction + s.hop.fraction == 1.0
  {
    var s := Tally(msd, dapp, models, len);
    var b, c, h := Count(models, "brownian"), Count(models, "confined"), Count(models, "hop");
    assert s.brownian.fraction == b as real / (b + c + h) as real;
    assert s.confined.fraction == c as real / (b + c + h) as real;
    assert s.hop.fraction == h as real / (b + c + h) as real;
    SharesSumToOne(b, c, h);
  }

  /** When every track labelled `name` has the same curve `c`, their sum is `c` times their
      number. */
  lemma {:induction false} SumOfEqualCurves(curves: seq<seq<real>>, models: seq<string>, name: string, len: nat, c: seq<real>)
    requires |curves| == |models| && Uniform(curves, len) && |c| == len
    requires forall k :: 0 <= k < |models| && models[k] == name ==> curves[k] == c
    ensures forall i :: 0 <= i < len ==> CurveSum(curves, models, name, len)[i] == Count(models, name) as real * c[i]
    decreases |curves|
  {
    if |curves| > 0 {
      var n := |curves| - 1;
      assert forall k :: 0 <= k < n ==> curves[..n][k] == curves[k] && models[..n][k] == models[k];
      SumOfEqualCurves(curves[..n], models[..n], name, len, c);
      var m := Count(models[..n], name) as real;
      if models[n] == name {
        forall i | 0 <= i < len ensures CurveSum(curves, models, name, len)[i] == Count(models, name) as real * c[i] {
          OneMoreCopy(m, c[i]);
        }
      }
    }
  }

  lemma OneMoreCopy(m: real, v: real)
    ensures m * v + v == (m + 1.0) * v
  {
  }

  /** Dividing `n` copies of a value by `n` gives the value back. */
  lemma DivideMultiple(n: nat, v: real)
    requires n > 0
    ensures (n as real * v) / n as real == v
  {
  }

  predicate IsCategory(name: string)
  {
    name == "brownian" || name == "confined" || name == "hop"
  }

  /** The summary entry of a category, by its label. */
  function CategoryOf(s: Summary, name: string): Category
    requires IsCategory(name)
  {
    if name == "brownian" then s.brownian else if name == "confined" then s.confined else s.hop
  }

  /** A category whose tracks all share one D_app curve and one MSD curve averages to exactly
      those curves. */
  lemma IdenticalCurvesAverageToThemselves(msd: seq<seq<real>>, dapp: seq<seq<real>>, models: seq<string>, len: nat,
                                           name: string, dappCurve: seq<real>, msdCurve: seq<real>)
    requires |msd| == |models| && |dapp| == |models| && Uniform(msd, len) && Uniform(dapp, len)
    requires IsCategory(name) && Count(models, name) > 0
    requires |dappCurve| == len && |msdCurve| == len
    requires forall k :: 0 <= k < |models| && models[k] == name ==> dapp[k] == dappCurve && msd[k] == msdCurve
    ensures Classified(models) > 0
    ensures CategoryOf(Tally(msd, dapp, models, len), name).dappAverage == Some(dappCurve)
    ensures CategoryOf(Tally(msd, dapp, models, len), name).msdAverage == Some(msdCurve)
  {
    AverageOfEqualCurves(dapp, models, name, len, dappCurve);
    AverageOfEqualCurves(msd, models, name, len, msdCurve);
    assert CategoryOf(Tally(msd, dapp, models, len), name)
        == Summarise(CategorySums(msd, dapp, models, len, name), Classified(models));
  }

  /** A label no track carries counts zero. */
  lemma {:induction false} CountAbsent(models: seq<string>, name: string)
    requires forall k :: 0 <= k < |models| ==> models[k] != name
    ensures Count(models, name) == 0
    decreases |models|
  {
    if |models| > 0 {
      var n := |models| - 1;
      assert forall k :: 0 <= k < n ==> models[..n][k] == models[k];
      CountAbsent(models[..n], name);
    }
  }

  /** When every classified track carries the same label, that category's fraction is 1 and
      the other two categories' fractions are 0. */
  lemma OneCategoryTakesAll(msd: seq<seq<real>>, dapp: seq<seq<real>>, models: seq<string>, len: nat, name: string)
    requires |msd| == |models| && |dapp| == |models| && Uniform(msd, len) && Uniform(dapp, len)
    requires IsCategory(name) && Count(models, name) > 0
    requires forall k :: 0 <= k < |models| ==> models[k] == name || models[k] == "unknown"
    ensures Classified(models) == Count(models, name)
    ensures Tally(msd, dapp, models, len).brownian.fraction == if name == "brownian" then 1.0 else 0.0
    ensures Tally(msd, dapp, models, len).confined.fraction == if name == "confined" then 1.0 else 0.0
    ensures Tally(msd, dapp, models, len).hop.fraction == if name == "hop" then 1.0 else 0.0
  {
    if name != "brownian" { CountAbsent(models, "brownian"); }
    if name != "confined" { CountAbsent(models, "confined"); }
    if name != "hop" { CountAbsent(models, "hop"); }
    var n := Count(models, name);
    WholeAndNoShare(n);
    var s := Tally(msd, dapp, models, len);
    assert s.brownian.fraction == Count(models, "brownian") as real / n as real;
    assert s.confined.fraction == Count(models, "confined") as real / n as real;
    assert s.hop.fraction == Count(models, "hop") as real / n as real;
  }

  /** The share of all of a positive total is 1, the share of none of it is 0. */
  lemma WholeAndNoShare(n: nat)
    requires n > 0
    ensures n as real / n as real == 1.0 && 0 as real / n as real == 0.0
  {
  }

  /** The average of curves that are all equal to `c` is `c`. */
  lemma AverageOfEqualCurves(curves: seq<seq<real>>, models: seq<string>, name: string, len: nat, c: seq<real>)
    requires |curves| == |models| && Uniform(curves, len) && |c| == len && Count(models, name) > 0
    requires forall k :: 0 <= k < |models| && models[k] == name ==> curves[k] == c
    ensures Scale(CurveSum(curves, models, name, len), Count(models, name)) == c
  {
    SumOfEqualCurves(curves, models, name, len, c);
    ScaleOfMultiple(CurveSum(curves, models, name, len), Count(models, name), c);
  }

  lemma ScaleOfMultiple(sum: seq<real>, n: nat, c: seq<real>)
    requires n > 0 && |sum| == |c|
    requires forall i :: 0 <= i < |c| ==> sum[i] == n as real * c[i]
    ensures Scale(sum, n) == c
  {
    forall i | 0 <= i < |c| ensures Scale(sum, n)[i] == c[i] {
      DivideMultiple(n, c[i]);
    }
  }

  /** The curve of a track that is not labelled `name` does not enter `name`'s sum. */
  lemma {:induction false} CurveSumIgnoresOthers(curves: seq<seq<real>>, models: seq<string>, name: string, len: nat, k: nat, curve: seq<real>)
    requires |curves| == |models| && Uniform(curves, len) && |curve| == len
    requires k < |models| && models[k] != name
    ensures CurveSum(curves[k := curve], models, name, len) == CurveSum(curves, models, name, len)
    decreases |curves|
  {
    var n := |curves| - 1;
    if k < n {
      assert curves[k := curve][..n] == curves[..n][k := curve];
      CurveSumIgnoresOthers(curves[..n], models[..n], name, len, k, curve);
    } else {
      assert curves[k := curve][..n] == curves[..n];
    }
  }

  /** Tracks labelled `unknown` touch no counter and no sum: replacing the curves of such a
      track by any curves of the same lengths leaves the result unchanged. */
  lemma UnknownTracksIgnored(tracks: seq<seq<real>>, msd: seq<seq<real>>, dapp: seq<seq<real>>, models: seq<string>,
                             k: nat, msdCurve: seq<real>, dappCurve: seq<real>)
    requires |msd| == |tracks| && |dapp| == |tracks| && k < |models| && models[k] == "unknown"
    requires k < |tracks| && |msdCurve| == |msd[k]| && |dappCurve| == |dapp[k]|
    ensures Averaged(tracks, msd[k := msdCurve], dapp[k := dappCurve], models) == Averaged(tracks, msd, dapp, models)
  {
    var msd', dapp' := msd[k := msdCurve], dapp[k := dappCurve];
    if |tracks[0]| >= 3 && |tracks| == |models| {
      var len := |tracks[0]| - 3;
      LengthErrorSeesOnlyLengths(tracks, msd, dapp, len, 0, k, msdCurve, dappCurve);
      if LengthError(tracks, msd, dapp, len, 0).None? {
        forall name | name in {"brownian", "confined", "hop"}
          ensures CurveSum(msd', models, name, len) == CurveSum(msd, models, name, len)
          ensures CurveSum(dapp', models, name, len) == CurveSum(dapp, models, name, len)
        {
          CurveSumIgnoresOthers(msd, models, name, len, k, msdCurve);
          CurveSumIgnoresOthers(dapp, models, name, len, k, dappCurve);
        }
      }
    }
  }

  lemma {:induction false} LengthErrorSeesOnlyLengths(tracks: seq<seq<real>>, msd: seq<seq<real>>, dapp: seq<seq<real>>, len: nat,
                                                      j: nat, k: nat, msdCurve: seq<real>, dappCurve: seq<real>)
    requires |msd| == |tracks| && |dapp| == |tracks| && j <= |tracks| && k < |tracks|
    requires |msdCurve| == |msd[k]| && |dappCurve| == |dapp[k]|
    ensures LengthError(tracks, msd[k := msdCurve], dapp[k := dappCurve], len, j) == LengthError(tracks, msd, dapp, len, j)
    decreases |tracks| - j
  {
    if j < |tracks| {
      LengthErrorSeesOnlyLengths(tracks, msd, dapp, len, j + 1, k, msdCurve, dappCurve);
    }
  }
}
