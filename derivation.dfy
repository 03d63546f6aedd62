/**
  The results page: from the chosen fit, the mission time at the requested
  reliability (age-related failures) or the mean time between failures and
  two inspection budgets (random failures), each in hours, days, months and
  years.
 */
module Derivation {
  import opened Wrappers
  import opened Rounding
  import opened Classifier
  import opened Units
  import opened Fits

  /**
    The numerics the page borrows: natural logarithm, real power and the
    gamma function, whose values the model does not fix.
   */
  datatype Math = Math(ln: real -> real, pow: (real, real) -> real, gamma: real -> real)

  /** The multipliers of the two budgets: 2% and 1% of twice the MTBF. */
  const NonSafetyFactor: real := 2.0 * 0.02
  const SafetyFactor: real := 2.0 * 0.01

  /** A derived quantity: hours rounded to two decimals, and the units of the unrounded hours. */
  datatype Measure = Measure(hours: real, units: Units)

  function MeasureOf(h: real): (m: Measure)
    ensures Abs(m.hours - h) <= 0.005
    ensures m.hours * TwoPlaces == RoundHalfEven(h * TwoPlaces) as real
    ensures Some(m.units) == ConvertHours(Some(h))
  {
    Measure(RoundTo(h, TwoPlaces), ConvertHours(Some(h)).value)
  }

  datatype Derived =
    | MissionTime(reliability: real, time: Measure)
    | Mtbf(mtbf: Measure, nonSafety: Measure, safety: Measure)
    | NoDerivation

  datatype Report = Report(beta: real, alpha: real, pattern: Pattern, derived: Derived)

  datatype ResultsPage =
    | ServerError               // float() raised on the stored reliability level
    | UnfitPage(message: string)
    | ReportPage(report: Report)

  const UnfitMessage: string := "Could not fit model."

  /** `alpha * (-ln(R)) ** (1 / beta)`: the age at which reliability has fallen to R. */
  function MissionTimeHours(alpha: real, beta: real, reliability: real, math: Math): real
    requires beta != 0.0
  {
    alpha * math.pow(-math.ln(reliability), 1.0 / beta)
  }

  /** `alpha * gamma(1 + 1 / beta)`: the Weibull mean. */
  function MtbfHours(alpha: real, beta: real, math: Math): real
    requires beta != 0.0
  {
    alpha * math.gamma(1.0 + 1.0 / beta)
  }

  /** The Weibull reliability function R(t) = exp(-(t / alpha) ** beta). */
  function WeibullReliability(t: real, alpha: real, beta: real, exp: real -> real, math: Math): real
    requires alpha != 0.0
  {
    exp(-math.pow(t / alpha, beta))
  }

  /**
    The mission time inverts the reliability function: wherever the power
    undoes itself and exp undoes ln at the values involved, the reliability
    at the mission time is the requested level.
   */
  lemma MissionTimeInverts(alpha: real, beta: real, level: real, exp: real -> real, math: Math)
    requires alpha != 0.0 && beta != 0.0
    requires math.pow(math.pow(-math.ln(level), 1.0 / beta), beta) == -math.ln(level)
    requires exp(math.ln(level)) == level
    ensures WeibullReliability(MissionTimeHours(alpha, beta, level, math), alpha, beta, exp, math) == level
  {
    var y := math.pow(-math.ln(level), 1.0 / beta);
    assert MissionTimeHours(alpha, beta, level, math) / alpha == y;
    assert -math.pow(y, beta) == math.ln(level);
  }

  /**
    The derivation from the chosen record and the parsed reliability level
    (None where the level is absent or empty).
   */
  function Derive(record: Option<FitRecord>, reliability: Option<real>, math: Math): (p: ResultsPage)
    ensures !p.ServerError?
    ensures p.UnfitPage? <==> record.None? || record.value.FitError? || record.value.beta == 0.0
    ensures p.UnfitPage? ==>
      p.message == if record.Some? && record.value.FitError? then record.value.error else UnfitMessage
    ensures p.ReportPage? ==>
      var rec, out := record.value, p.report;
      && out.beta == rec.beta && out.alpha == rec.alpha && out.pattern == rec.pattern
      && (out.derived.MissionTime? <==> rec.pattern == AgeRelated && reliability.Some? && reliability.value != 0.0)
      && (out.derived.Mtbf? <==> rec.pattern == RandomFailure)
      && (out.derived.MissionTime? ==>
            && out.derived.reliability == reliability.value
            && out.derived.time == MeasureOf(MissionTimeHours(rec.alpha, rec.beta, reliability.value, math)))
      && (out.derived.Mtbf? ==>
            var m := MtbfHours(rec.alpha, rec.beta, math);
            && out.derived.mtbf == MeasureOf(m)
            && out.derived.nonSafety == MeasureOf(m * 0.04)
            && out.derived.safety == MeasureOf(m * 0.02))
  {
    if record.None? || record.value.FitError? then
      UnfitPage(if record.Some? then record.value.error else UnfitMessage)
    else if record.value.beta == 0.0 then UnfitPage(UnfitMessage)
    else
      var rec := record.value;
      var derived :=
        if rec.pattern == AgeRelated && reliability.Some? && reliability.value != 0.0 then
          MissionTime(reliability.value, MeasureOf(MissionTimeHours(rec.alpha, rec.beta, reliability.value, math)))
        else if rec.pattern == RandomFailure then
          var m := MtbfHours(rec.alpha, rec.beta, math);
          Mtbf(MeasureOf(m), MeasureOf(m * NonSafetyFactor), MeasureOf(m * SafetyFactor))
        else NoDerivation;
      ReportPage(Report(rec.beta, rec.alpha, rec.pattern, derived))
  }

  /**
    `float(level) if level else None` on the stored level: None for an absent or
    empty level, and an error where float() raises.
   */
  function ReliabilityLevel(stored: Option<string>, parse: string -> Option<real>): (r: Option<Option<real>>)
    ensures r.None? <==> stored.Some? && stored.value != "" && parse(stored.value).None?
    ensures r == Some(None) <==> stored.None? || stored.value == ""
    ensures r.Some? && r.value.Some? ==> parse(stored.value) == r.value
  {
    if stored.None? || stored.value == "" then Some(None)
    else
      match parse(stored.value)
      case None => None
      case Some(v) => Some(Some(v))
  }

  /** `session.get(f"results_{choice}", {})`: only "mle" and "rr" name a record. */
  function ChosenRecord(choice: string, mle: Option<FitRecord>, rr: Option<FitRecord>): Option<FitRecord> {
    if choice == "mle" then mle else if choice == "rr" then rr else None
  }

  /** The whole results page, from what the session holds. */
  function ResultsView(
    chosen: Option<string>, mle: Option<FitRecord>, rr: Option<FitRecord>,
    storedLevel: Option<string>, parse: string -> Option<real>, math: Math): (p: ResultsPage)
    ensures p.ServerError? <==> ReliabilityLevel(storedLevel, parse).None?
    ensures !p.ServerError? ==>
      p == Derive(ChosenRecord(if chosen.Some? then chosen.value else "mle", mle, rr),
                  ReliabilityLevel(storedLevel, parse).value, math)
  {
    match ReliabilityLevel(storedLevel, parse)
    case None => ServerError
    case Some(level) => Derive(ChosenRecord(if chosen.Some? then chosen.value else "mle", mle, rr), level, math)
  }
}
