/**
 * The threshold evaluator: classify a measured value against a warning and a
 * critical threshold. The direction is inferred from the thresholds' order:
 * with warn < crit a value is breaching when it is too high, with warn > crit
 * when it is too low. A value equal to a threshold breaches it.
 */
module Utils {
  import opened Wrappers
  import opened Check

  /** The one configuration error: the two thresholds coincide. */
  datatype ThresholdError = EqualThresholds

  /**
   * Evaluate `value` against the thresholds, producing a bare result whose
   * state is OK, Warning or Critical; equal thresholds are refused.
   */
  function Evaluate(value: real, warn: real, crit: real): (r: Result<CheckResult, ThresholdError>)
    ensures r.Failure? <==> warn == crit
    ensures r.Success? ==> r.value.GetState() != Unknown
    ensures r.Success? ==> r.value == FromExitCode(ExitCode(r.value.GetState()))
  {
    if warn == crit then
      Failure(EqualThresholds)
    else if warn < crit then
      if value >= crit then Success(FromExitCode(2))
      else if value >= warn then Success(FromExitCode(1))
      else Success(FromExitCode(0))
    else
      if value <= crit then Success(FromExitCode(2))
      else if value <= warn then Success(FromExitCode(1))
      else Success(FromExitCode(0))
  }

  /** The state of a successful evaluation. */
  function EvaluatedState(value: real, warn: real, crit: real): State
    requires warn != crit
  {
    Evaluate(value, warn, crit).value.GetState()
  }

  /** Equal thresholds are refused whatever the value. */
  lemma EqualThresholdsRefused(value: real, t: real)
    ensures Evaluate(value, t, t) == Failure(EqualThresholds)
  {
  }

  /** Ascending thresholds: too high is bad. */
  lemma EvaluateAscending(value: real, warn: real, crit: real)
    requires warn < crit
    ensures EvaluatedState(value, warn, crit) == Critical <==> value >= crit
    ensures EvaluatedState(value, warn, crit) == Warning <==> warn <= value < crit
    ensures EvaluatedState(value, warn, crit) == OK <==> value < warn
  {
  }

  /** Descending thresholds: too low is bad. */
  lemma EvaluateDescending(value: real, warn: real, crit: real)
    requires warn > crit
    ensures EvaluatedState(value, warn, crit) == Critical <==> value <= crit
    ensures EvaluatedState(value, warn, crit) == Warning <==> crit < value <= warn
    ensures EvaluatedState(value, warn, crit) == OK <==> value > warn
  {
  }

  /** A value equal to a threshold lies on the breached side of it. */
  lemma BoundariesInclusive(warn: real, crit: real)
    requires warn != crit
    ensures EvaluatedState(crit, warn, crit) == Critical
    ensures EvaluatedState(warn, warn, crit) == Warning
  {
  }

  /**
   * `value` breaches `threshold` in the direction the thresholds give:
   * at or above it when ascending, at or below it when descending.
   */
  predicate Breaches(value: real, threshold: real, ascending: bool) {
    if ascending then value >= threshold else value <= threshold
  }

  /**
   * The exit code of an evaluation counts the thresholds the value breaches:
   * none is OK, the warning threshold alone is Warning, both is Critical.
   */
  lemma EvaluateCountsBreaches(value: real, warn: real, crit: real)
    requires warn != crit
    ensures ExitCode(EvaluatedState(value, warn, crit))
      == (if Breaches(value, warn, warn < crit) then 1 else 0)
       + (if Breaches(value, crit, warn < crit) then 1 else 0)
  {
  }

  /** The descending case is the mirror image of the ascending one. */
  lemma EvaluateMirror(value: real, warn: real, crit: real)
    ensures Evaluate(value, warn, crit) == Evaluate(-value, -warn, -crit)
  {
  }

  /**
   * A value further into the breached direction never gets a milder state:
   * with ascending thresholds the exit code grows with the value, with
   * descending thresholds it shrinks.
   */
  lemma EvaluateMonotone(v: real, u: real, warn: real, crit: real)
    requires warn != crit
    requires v <= u
    ensures warn < crit ==> ExitCode(EvaluatedState(v, warn, crit)) <= ExitCode(EvaluatedState(u, warn, crit))
    ensures warn > crit ==> ExitCode(EvaluatedState(v, warn, crit)) >= ExitCode(EvaluatedState(u, warn, crit))
  {
  }

  /** The documented evaluations, and the documented refusal of equal thresholds. */
  lemma EvaluateExamples()
    ensures Evaluate(0.0, 3.0, 4.0) == Success(FromExitCode(0))
    ensures Evaluate(5.0, 3.2, 7.0) == Success(FromExitCode(1))
    ensures Evaluate(3.0, 2.99, 3.0) == Success(FromExitCode(2))
    ensures Evaluate(2.0, 1.0, 0.0) == Success(FromExitCode(0))
    ensures Evaluate(2.0, 3.0, 2.5) == Success(FromExitCode(2))
    ensures Evaluate(1.0, 2.0, 2.0).Failure?
  {
  }

  /** The library's unit tests: integer and fractional inputs mixed. */
  lemma EvaluateUnitTests()
    ensures EvaluatedState(0.0, 1.0, 2.0) == OK
    ensures EvaluatedState(1.0, 1.0, 2.0) == Warning
    ensures EvaluatedState(2.0, 1.0, 2.0) == Critical
    ensures EvaluatedState(1.0, 5.0, 7.3) == OK
    ensures EvaluatedState(2.0, 2.0, 8.1) == Warning
    ensures EvaluatedState(1.0, 1.0, 2.43) == Warning
    ensures EvaluatedState(1.11, 1.12, 1.13) == OK
  {
  }
}
