/**
  The failure-pattern classifier `get_weibull_pattern`: a Weibull shape
  parameter `beta` names one of three qualitative failure patterns, with the
  band [0.9, 1.1] read as random (exponential-like) failure.
 */
module Classifier {
  import opened Wrappers

  datatype Pattern = AgeRelated | InfantMortality | RandomFailure

  const AgeRelatedAbove: real := 1.1
  const InfantMortalityBelow: real := 0.9

  /** The label the application shows and stores for a pattern. */
  function Label(p: Pattern): string {
    match p
    case AgeRelated => "Age-related failure"
    case InfantMortality => "Infant mortality (RCA Required)"
    case RandomFailure => "Random failure"
  }

  /** Comparing labels as strings is comparing patterns. */
  lemma LabelsDistinct(p: Pattern, q: Pattern)
    ensures Label(p) == Label(q) <==> p == q
  {
    if p != q {
      assert Label(p)[0] != Label(q)[0] || |Label(p)| != |Label(q)|;
    }
  }

  /** `get_weibull_pattern(beta)`: total on numbers, absent for an absent beta. */
  function PatternOf(beta: Option<real>): (p: Option<Pattern>)
    ensures p.None? <==> beta.None?
    ensures p == Some(AgeRelated) <==> beta.Some? && beta.value > 1.1
    ensures p == Some(InfantMortality) <==> beta.Some? && beta.value < 0.9
    ensures p == Some(RandomFailure) <==> beta.Some? && 0.9 <= beta.value <= 1.1
  {
    match beta
    case None => None
    case Some(b) =>
      if b > AgeRelatedAbove then Some(AgeRelated)
      else if b < InfantMortalityBelow then Some(InfantMortality)
      else Some(RandomFailure)
  }

  /** The boundary values of the dead band. */
  lemma BandEdges()
    ensures PatternOf(Some(1.1)) == Some(RandomFailure)
    ensures PatternOf(Some(1.1000001)) == Some(AgeRelated)
    ensures PatternOf(Some(0.9)) == Some(RandomFailure)
    ensures PatternOf(Some(0.8999999)) == Some(InfantMortality)
  {
  }
}
