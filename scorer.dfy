/**
  The recommendation of the fit-comparison page: up to three statistics,
  each compared only when both records offer it, give one point to the
  better side; the side with more points is recommended, and a tie goes to
  maximum likelihood.
 */
module Scorer {
  import opened Wrappers
  import opened Fits
  import opened Classifier

  /** The outcome of one comparison. */
  datatype Point = Skipped | Even | MleBetter | RrBetter

  /** The exceptions the AICc comparison can raise. */
  datatype ScoreError =
    | MissingMleAicc      // KeyError: no "AICc" in the MLE record while RR has one
    | AiccNotComparable   // TypeError: a number compared with the string "N/A"

  datatype Tally = Tally(mleScore: nat, rrScore: nat, counted: nat)

  datatype Choice = MleChoice | RrChoice

  /** The scores and the method the page recommends. */
  datatype Recommendation = Recommendation(tally: Tally, choice: Choice)

  /** `record.get("loglik")`; a missing record is the empty dictionary. */
  function Loglik(r: Option<FitRecord>): Option<real> {
    if r.Some? && r.value.FitOk? then Some(r.value.loglik) else None
  }

  function Ad(r: Option<FitRecord>): Option<real> {
    if r.Some? && r.value.FitOk? then Some(r.value.ad) else None
  }

  function AiccOf(r: Option<FitRecord>): Option<Aicc> {
    if r.Some? && r.value.FitOk? then Some(r.value.aicc) else None
  }

  /** Python truthiness of an optional number: present and not zero. */
  predicate Truthy(v: Option<real>) {
    v.Some? && v.value != 0.0
  }

  /** A comparison of two numbers; `higherWins` says which direction is better. */
  function Compare(higherWins: bool, mle: real, rr: real): (p: Point)
    ensures p != Skipped
    ensures p == Even <==> mle == rr
    ensures p == MleBetter <==> (if higherWins then mle > rr else mle < rr)
  {
    if (if higherWins then mle > rr else mle < rr) then MleBetter
    else if (if higherWins then rr > mle else rr < mle) then RrBetter
    else Even
  }

  /** Log-likelihood, higher is better; skipped unless both values are truthy. */
  function LoglikPoint(mle: Option<FitRecord>, rr: Option<FitRecord>): Point {
    if Truthy(Loglik(mle)) && Truthy(Loglik(rr)) then Compare(true, Loglik(mle).value, Loglik(rr).value)
    else Skipped
  }

  /** Anderson-Darling, lower is better; skipped unless both values are truthy. */
  function AdPoint(mle: Option<FitRecord>, rr: Option<FitRecord>): Point {
    if Truthy(Ad(mle)) && Truthy(Ad(rr)) then Compare(false, Ad(mle).value, Ad(rr).value)
    else Skipped
  }

  /**
    AICc, lower is better; compared when MLE's is not "N/A" and RR has one,
    which includes the cases in which the comparison raises.
   */
  function AiccPoint(mle: Option<FitRecord>, rr: Option<FitRecord>): Result<Point, ScoreError> {
    if AiccOf(mle) == Some(NotApplicable) || AiccOf(rr).None? then Ok(Skipped)
    else if AiccOf(mle).None? then Err(MissingMleAicc)
    else if AiccOf(rr) == Some(NotApplicable) then Err(AiccNotComparable)
    else Ok(Compare(false, AiccOf(mle).value.value, AiccOf(rr).value.value))
  }

  /** The point a comparison gives to `side`: one or none. */
  function Won(p: Point, side: Point): nat {
    if p == side then 1 else 0
  }

  /** Whether a comparison was made at all. */
  function Made(p: Point): nat {
    if p == Skipped then 0 else 1
  }

  /** The scores after the three comparisons, in the order of the source. */
  function Scored(mle: Option<FitRecord>, rr: Option<FitRecord>): Result<Tally, ScoreError> {
    var loglik, ad := LoglikPoint(mle, rr), AdPoint(mle, rr);
    match AiccPoint(mle, rr)
    case Err(e) => Err(e)
    case Ok(aicc) =>
      Ok(Tally(Won(loglik, MleBetter) + Won(ad, MleBetter) + Won(aicc, MleBetter),
               Won(loglik, RrBetter) + Won(ad, RrBetter) + Won(aicc, RrBetter),
               Made(loglik) + Made(ad) + Made(aicc)))
  }

  /** Points never exceed comparisons, which never exceed three. */
  lemma ScoreBounds(mle: Option<FitRecord>, rr: Option<FitRecord>)
    ensures Scored(mle, rr).Ok? ==>
      var t := Scored(mle, rr).value;
      t.mleScore + t.rrScore <= t.counted <= 3
  {
  }

  /** The scorer raises exactly when the AICc guard lets a bad comparison through. */
  lemma ScoreErrors(mle: Option<FitRecord>, rr: Option<FitRecord>)
    ensures Scored(mle, rr).Err? <==>
      AiccOf(rr).Some? && (AiccOf(mle).None? || (AiccOf(mle).value.AiccValue? && AiccOf(rr) == Some(NotApplicable)))
  {
  }

  /**
    For records the data-entry step stores, the scorer raises exactly when
    the maximum-likelihood fit failed and the rank-regression fit did not.
   */
  lemma ScoredStoredRecords(mleFit: FitOutcome, rrFit: FitOutcome, n: nat)
    ensures Scored(Some(Record(Mle, mleFit, n)), Some(Record(Ls, rrFit, n))).Err? <==>
      mleFit.Raised? && rrFit.Fitted?
  {
    ScoreErrors(Some(Record(Mle, mleFit, n)), Some(Record(Ls, rrFit, n)));
  }

  /** The recommendation: rank regression only when it scores strictly better. */
  function Recommended(t: Tally): (c: Choice)
    ensures c == RrChoice <==> t.rrScore > t.mleScore
  {
    if t.mleScore > t.rrScore then MleChoice
    else if t.rrScore > t.mleScore then RrChoice
    else MleChoice
  }

  /**
    The page's scorer, with its counters incremented check by check: it
    computes Scored and recommends as Recommended does.
   */
  method Recommend(mle: Option<FitRecord>, rr: Option<FitRecord>) returns (r: Result<Recommendation, ScoreError>)
    ensures r.Err? <==> Scored(mle, rr).Err?
    ensures r.Err? ==> r.error == Scored(mle, rr).error
    ensures r.Ok? ==> r.value.tally == Scored(mle, rr).value && r.value.choice == Recommended(r.value.tally)
  {
    var mleScore, rrScore, counted := 0, 0, 0;
    // Check 1: log-likelihood, higher is better.
    if Truthy(Loglik(mle)) && Truthy(Loglik(rr)) {
      counted := counted + 1;
      if Loglik(mle).value > Loglik(rr).value {
        mleScore := mleScore + 1;
      } else if Loglik(rr).value > Loglik(mle).value {
        rrScore := rrScore + 1;
      }
    }
    // Check 2: Anderson-Darling, lower is better.
    if Truthy(Ad(mle)) && Truthy(Ad(rr)) {
      counted := counted + 1;
      if Ad(mle).value < Ad(rr).value {
        mleScore := mleScore + 1;
      } else if Ad(rr).value < Ad(mle).value {
        rrScore := rrScore + 1;
      }
    }
    // Check 3: AICc, lower is better, only when available.
    if AiccOf(mle) != Some(NotApplicable) && AiccOf(rr).Some? {
      counted := counted + 1;
      if AiccOf(mle).None? {
        return Err(MissingMleAicc);
      }
      var m, q := AiccOf(mle).value, AiccOf(rr).value;
      if q.NotApplicable? {
        return Err(AiccNotComparable);
      }
      if m.value < q.value {
        mleScore := mleScore + 1;
      } else if q.value < m.value {
        rrScore := rrScore + 1;
      }
    }
    // The winner; a tie goes to maximum likelihood.
    var choice;
    if mleScore > rrScore {
      choice := MleChoice;
    } else if rrScore > mleScore {
      choice := RrChoice;
    } else {
      choice := MleChoice;
    }
    r := Ok(Recommendation(Tally(mleScore, rrScore, counted), choice));
  }

  /**
    MLE {loglik -50, AD 0.5, AICc 100} against RR {loglik -55, AD 0.4,
    AICc 105}: MLE wins log-likelihood and AICc, RR wins AD.
   */
  lemma TwoOfThree(b: real, a: real, p: Pattern, b': real, a': real, p': Pattern)
    ensures Scored(Some(FitOk(b, a, p, -50.0, AiccValue(100.0), 0.5)),
                   Some(FitOk(b', a', p', -55.0, AiccValue(105.0), 0.4))) == Ok(Tally(2, 1, 3))
  {
  }

  /** Nothing to compare: a tie, and the default recommendation. */
  lemma NothingComparable(m1: string, m2: string)
    ensures Scored(Some(FitError(m1)), Some(FitError(m2))) == Ok(Tally(0, 0, 0))
    ensures Recommended(Tally(0, 0, 0)) == MleChoice
  {
  }
}
