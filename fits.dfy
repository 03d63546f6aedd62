/**
  The two fits of the data-entry step: the external Weibull fitter is asked
  once by maximum likelihood and once by least squares (rank regression),
  and each answer is stored as a rounded record or as an error record.
 */
module Fits {
  import opened Wrappers
  import opened Rounding
  import opened Classifier

  datatype FitMethod = Mle | Ls

  /** What the external fitter returns: its statistics, or the exception it raised. */
  datatype FitOutcome =
    | Fitted(beta: real, alpha: real, loglik: real, aicc: real, ad: real)
    | Raised(message: string)

  /** The stored AICc: a number, or the string "N/A". */
  datatype Aicc = NotApplicable | AiccValue(value: real)

  /** `results_mle` / `results_rr` in the session. */
  datatype FitRecord =
    | FitOk(beta: real, alpha: real, pattern: Pattern, loglik: real, aicc: Aicc, ad: real)
    | FitError(error: string)

  /** AICc is not reported for three or fewer data points. */
  const AiccMaxUnavailable: nat := 3

  /** Shape and scale are rounded to four places, the statistics to two. */
  const ParameterPlaces: real := FourPlaces
  const StatisticPlaces: real := TwoPlaces

  /**
    One stored record. Only the maximum-likelihood record has the "N/A"
    sentinel; `sampleSize` is `len(failures) + len(censored)`.
   */
  function Record(estimator: FitMethod, o: FitOutcome, sampleSize: nat): (r: FitRecord)
    ensures r.FitError? <==> o.Raised?
    ensures r.FitError? ==> r.error == o.message
    ensures r.FitOk? ==>
      && Abs(r.beta - o.beta) <= 0.00005 && Abs(r.alpha - o.alpha) <= 0.00005
      && Abs(r.loglik - o.loglik) <= 0.005 && Abs(r.ad - o.ad) <= 0.005
      && r.beta * ParameterPlaces == RoundHalfEven(o.beta * ParameterPlaces) as real
      && r.alpha * ParameterPlaces == RoundHalfEven(o.alpha * ParameterPlaces) as real
      && r.loglik * StatisticPlaces == RoundHalfEven(o.loglik * StatisticPlaces) as real
      && r.ad * StatisticPlaces == RoundHalfEven(o.ad * StatisticPlaces) as real
      && PatternOf(Some(r.beta)) == Some(r.pattern)
      && (r.aicc == NotApplicable <==> estimator == Mle && sampleSize <= AiccMaxUnavailable)
      && (r.aicc.AiccValue? ==> Abs(r.aicc.value - o.aicc) <= 0.005)
      && (r.aicc.AiccValue? ==> r.aicc.value * StatisticPlaces == RoundHalfEven(o.aicc * StatisticPlaces) as real)
  {
    match o
    case Raised(msg) => FitError(msg)
    case Fitted(beta, alpha, loglik, aicc, ad) =>
      var b := RoundTo(beta, ParameterPlaces);
      var a := RoundTo(alpha, ParameterPlaces);
      var aic :=
        if estimator == Mle && sampleSize <= AiccMaxUnavailable then NotApplicable
        else AiccValue(RoundTo(aicc, StatisticPlaces));
      FitOk(b, a, PatternOf(Some(b)).value, RoundTo(loglik, StatisticPlaces), aic, RoundTo(ad, StatisticPlaces))
  }

  /** The external fitter: data, censored data and method to an outcome. */
  type Fitter = (seq<real>, seq<real>, FitMethod) -> FitOutcome

  /**
    Both records, each from its own call of the fitter: a record is an error
    exactly when its own call raised; a successful rank-regression record
    always has an AICc, and a successful maximum-likelihood record has "N/A"
    exactly for three or fewer data points.
   */
  function DualFit(failures: seq<real>, censored: seq<real>, fit: Fitter): (r: (FitRecord, FitRecord))
    ensures r.0.FitError? <==> fit(failures, censored, Mle).Raised?
    ensures r.1.FitError? <==> fit(failures, censored, Ls).Raised?
    ensures r.0.FitError? ==> r.0.error == fit(failures, censored, Mle).message
    ensures r.1.FitError? ==> r.1.error == fit(failures, censored, Ls).message
    ensures r.0.FitOk? ==>
      && r.0.beta * ParameterPlaces == RoundHalfEven(fit(failures, censored, Mle).beta * ParameterPlaces) as real
      && PatternOf(Some(r.0.beta)) == Some(r.0.pattern)
      && (r.0.aicc == NotApplicable <==> |failures| + |censored| <= AiccMaxUnavailable)
    ensures r.1.FitOk? ==>
      && r.1.beta * ParameterPlaces == RoundHalfEven(fit(failures, censored, Ls).beta * ParameterPlaces) as real
      && PatternOf(Some(r.1.beta)) == Some(r.1.pattern)
      && r.1.aicc.AiccValue?
  {
    var n := |failures| + |censored|;
    (Record(Mle, fit(failures, censored, Mle), n), Record(Ls, fit(failures, censored, Ls), n))
  }

  /**
    The two fits do not affect each other: fitters that agree on one
    method give that method the same record, whatever the other one does.
   */
  lemma FitsIndependent(failures: seq<real>, censored: seq<real>, fit1: Fitter, fit2: Fitter)
    ensures fit1(failures, censored, Mle) == fit2(failures, censored, Mle) ==>
      DualFit(failures, censored, fit1).0 == DualFit(failures, censored, fit2).0
    ensures fit1(failures, censored, Ls) == fit2(failures, censored, Ls) ==>
      DualFit(failures, censored, fit1).1 == DualFit(failures, censored, fit2).1
  {
  }

  /** The rank-regression record never carries the "N/A" sentinel. */
  lemma RankRegressionAiccAvailable(o: FitOutcome, sampleSize: nat)
    ensures Record(Ls, o, sampleSize).FitOk? ==> Record(Ls, o, sampleSize).aicc.AiccValue?
  {
  }
}
