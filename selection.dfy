/** Model selection: the residual sum of squares, the Bayesian information criterion built on
    it, the choice of the category with the least BIC, and the relative likelihoods. */
module Selection {
  import opened Numerics

  /** `np.sum((pred - target) ** 2)`: zero exactly when the prediction meets every target. */
  function RSS(pred: seq<real>, target: seq<real>): (r: real)
    requires |pred| == |target|
    ensures r >= 0.0
    ensures r == 0.0 <==> pred == target
  {
    if |pred| == 0 then 0.0
    else
      assert pred == [pred[0]] + pred[1..] && target == [target[0]] + target[1..];
      Square(pred[0] - target[0]) + RSS(pred[1..], target[1..])
  }

  /** `BIC(pred, target, k, n) = k*log(n) + n*log(RSS/n)`. */
  function BIC(pred: seq<real>, target: seq<real>, k: int, n: int, nm: Numerics): (b: real)
    requires |pred| == |target| && n > 0
    ensures Sane(nm) && n == 1 ==> b == nm.log(RSS(pred, target))
  {
    k as real * nm.log(n as real) + n as real * nm.log(RSS(pred, target) / n as real)
  }

  /** Every caller passes `n = 1`, and then the parameter count `k` drops out: the BIC is just
      `log(RSS)`, so no model is penalised for its extra parameters. */
  lemma BicWithUnitCount(pred: seq<real>, target: seq<real>, k1: int, k2: int, nm: Numerics)
    requires |pred| == |target| && Sane(nm)
    ensures BIC(pred, target, k1, 1, nm) == nm.log(RSS(pred, target))
    ensures BIC(pred, target, k1, 1, nm) == BIC(pred, target, k2, 1, nm)
  {
  }

  /** `min([a, b])`. */
  function Min2(a: real, b: real): (m: real)
    ensures m <= a && m <= b && (m == a || m == b)
  {
    if b < a then b else a
  }

  /** `min([a, b, c])`. */
  function Min3(a: real, b: real, c: real): (m: real)
    ensures m <= a && m <= b && m <= c && (m == a || m == b || m == c)
  {
    Min2(Min2(a, b), c)
  }

  /** The category chosen by `adc_analysis` from the three BIC values. */
  function Classify(bicBrownian: real, bicConfined: real, bicHop: real): (category: string)
    ensures category != "unknown"
    ensures || (category == "brownian" && bicBrownian == Min3(bicBrownian, bicConfined, bicHop))
            || (category == "confined" && bicConfined == Min3(bicBrownian, bicConfined, bicHop))
            || (category == "hop" && bicHop == Min3(bicBrownian, bicConfined, bicHop))
  {
    var bicMin := Min3(bicBrownian, bicConfined, bicHop);
    if bicMin == bicBrownian then "brownian"
    else if bicMin == bicConfined then "confined"
    else if bicMin == bicHop then "hop"
    else "unknown"
  }

  /** The chosen category has the least BIC, ties go to brownian, then confined, then hop, and
      with real BIC values "unknown" is never chosen. */
  lemma ClassifyIsArgmin(bb: real, bc: real, bh: real)
    ensures Classify(bb, bc, bh) in {"brownian", "confined", "hop"}
    ensures Classify(bb, bc, bh) == "brownian" <==> bb <= bc && bb <= bh
    ensures Classify(bb, bc, bh) == "confined" <==> bc < bb && bc <= bh
    ensures Classify(bb, bc, bh) == "hop" <==> bh < bb && bh < bc
  {
  }

  /** The exponent of the relative likelihood in `msd_analysis`: `(-bic + bic_min) / 2`. */
  function RelLikelihoodExponent(bic: real, bicMin: real): (e: real)
    ensures e <= 0.0 <==> bicMin <= bic
    ensures e == 0.0 <==> bic == bicMin
  {
    (-bic + bicMin) * 0.5
  }

  /** For two models, each exponent is at most 0, and it is 0 exactly for a model with the
      least BIC, whose relative likelihood is therefore `exp(0) = 1`. */
  lemma RelLikelihoodOfBest(bic1: real, bic2: real, nm: Numerics)
    requires Sane(nm)
    ensures RelLikelihoodExponent(bic1, Min2(bic1, bic2)) <= 0.0
    ensures RelLikelihoodExponent(bic2, Min2(bic1, bic2)) <= 0.0
    ensures RelLikelihoodExponent(bic1, Min2(bic1, bic2)) == 0.0 <==> bic1 <= bic2
    ensures RelLikelihoodExponent(bic2, Min2(bic1, bic2)) == 0.0 <==> bic2 <= bic1
    ensures bic1 <= bic2 ==> nm.exp(RelLikelihoodExponent(bic1, Min2(bic1, bic2))) == 1.0
    ensures bic2 <= bic1 ==> nm.exp(RelLikelihoodExponent(bic2, Min2(bic1, bic2))) == 1.0
  {
  }

  /** The exponent AS WRITTEN in `analysis.py` (`classicalMSDAnalysis`, `adc_analysis`):
      `(bic - bic_min) / 2`, with the sign reversed. */
  function RelLikelihoodExponentAsWritten(bic: real, bicMin: real): (e: real)
    ensures e >= 0.0 <==> bicMin <= bic
    ensures e == -RelLikelihoodExponent(bic, bicMin)
  {
    (bic - bicMin) * 0.5
  }

  /** With BICs 0 and 2 the as-written exponent of the worse model is +1, so its "relative
      likelihood" is `e > 1`, above the best model's; the corrected exponent is -1. */
  lemma RelLikelihoodAsWrittenExceedsBest()
    ensures RelLikelihoodExponentAsWritten(2.0, Min2(0.0, 2.0)) == 1.0
    ensures RelLikelihoodExponent(2.0, Min2(0.0, 2.0)) == -1.0
  {
  }
}
