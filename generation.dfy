/**
 * The label-probability pipeline of the dataset generator: each row's risk
 * goes through the logistic transform and the column is rescaled to the
 * target churn rate. The logistic transform is a parameter (`sigmoid`); the
 * final Bernoulli draw of the label is not modelled.
 */
module Generation {
  import opened Sampling
  import opened Risk
  import opened Scaling

  /** The configured share of churners the probability column is scaled to. */
  const TargetChurnRate: real := 0.25

  /** What the logistic transform guarantees: every value lies strictly between 0 and 1. */
  ghost predicate IsProbabilityMap(sigmoid: real -> real)
  {
    forall x :: 0.0 < sigmoid(x) < 1.0
  }

  /** A higher risk never maps to a lower probability. */
  ghost predicate IsMonotone(sigmoid: real -> real)
  {
    forall x, y :: x <= y ==> sigmoid(x) <= sigmoid(y)
  }

  /** The probability column before rescaling: the transform of each row's risk. */
  function RiskProbabilities(rows: seq<Customer>, noise: seq<real>, sigmoid: real -> real): (p: seq<real>)
    requires |rows| == |noise|
    ensures |p| == |rows|
    ensures forall i :: 0 <= i < |rows| ==> p[i] == sigmoid(ChurnRisk(rows[i], noise[i]))
  {
    if rows == [] then []
    else [sigmoid(ChurnRisk(rows[0], noise[0]))] + RiskProbabilities(rows[1..], noise[1..], sigmoid)
  }

  /**
   * Each row's churn probability as the generator hands it to the Bernoulli
   * draw: rescaled so that the column's mean is the target rate, then clipped.
   */
  function ChurnProbabilities(rows: seq<Customer>, noise: seq<real>, sigmoid: real -> real): (r: seq<real>)
    requires |rows| == |noise| > 0 && IsProbabilityMap(sigmoid)
    ensures |r| == |rows|
    ensures forall i :: 0 <= i < |r| ==> 0.0 <= r[i] <= 1.0
    ensures Mean(r) <= TargetChurnRate
  {
    var p := RiskProbabilities(rows, noise, sigmoid);
    PositiveMean(p);
    ScaleAndClipMeanAtMostTarget(p, TargetChurnRate);
    ScaleAndClip(p, TargetChurnRate)
  }

  /** When nothing clips at 1, the final probability column's mean is exactly the target rate. */
  lemma ChurnProbabilitiesHitTarget(rows: seq<Customer>, noise: seq<real>, sigmoid: real -> real)
    requires |rows| == |noise| > 0 && IsProbabilityMap(sigmoid)
    requires var p := RiskProbabilities(rows, noise, sigmoid);
             Mean(p) != 0.0 &&
             forall i :: 0 <= i < |p| ==> Scale(p, ScalingFactor(p, TargetChurnRate))[i] <= 1.0
    ensures Mean(ChurnProbabilities(rows, noise, sigmoid)) == TargetChurnRate
  {
    var p := RiskProbabilities(rows, noise, sigmoid);
    PositiveMean(p);
    ScaleAndClipMeanAtMostTarget(p, TargetChurnRate);
  }

  /** Changing one row changes only that row's entry of the unscaled column. */
  lemma RiskProbabilitiesUpdate(rows: seq<Customer>, noise: seq<real>, sigmoid: real -> real, i: int, d: Customer)
    requires |rows| == |noise| && 0 <= i < |rows|
    ensures RiskProbabilities(rows[i := d], noise, sigmoid) ==
            RiskProbabilities(rows, noise, sigmoid)[i := sigmoid(ChurnRisk(d, noise[i]))]
  {
  }

  /**
   * Monotone association: with every other row and all noise fixed, making one
   * customer riskier (more complaints; lower satisfaction, tenure, balance or
   * credit score; a loan; a frequency further from 18) never lowers that
   * customer's churn probability, even though the rescaling factor changes.
   */
  lemma ChurnProbabilityMonotone(rows: seq<Customer>, noise: seq<real>, sigmoid: real -> real, i: int, d: Customer)
    requires |rows| == |noise| > 0 && IsProbabilityMap(sigmoid) && IsMonotone(sigmoid)
    requires 0 <= i < |rows| && AtLeastAsRisky(rows[i], d)
    ensures ChurnProbabilities(rows, noise, sigmoid)[i] <= ChurnProbabilities(rows[i := d], noise, sigmoid)[i]
  {
    var p := RiskProbabilities(rows, noise, sigmoid);
    var x := sigmoid(ChurnRisk(d, noise[i]));
    RiskMonotone(rows[i], d, noise[i]);
    assert p[i] <= x;
    RiskProbabilitiesUpdate(rows, noise, sigmoid, i, d);
    ScaleAndClipEntryMonotone(p, TargetChurnRate, i, x);
  }
}
