/**
 * The two scoring formulas of the consensus package: a weighted score over four
 * performance metrics, and an exponentially smoothed update after one observed
 * outcome. Both are computed over exact reals; floating-point rounding is not modelled.
 */
module Reputation {

  datatype ReputationMetrics = ReputationMetrics(
    transactionSuccess: real,
    responseTime: real,
    uptimePercentage: real,
    dataQuality: real)

  const TransactionWeight: real := 0.4
  const ResponseWeight: real := 0.2
  const UptimeWeight: real := 0.2
  const QualityWeight: real := 0.2

  /** Five seconds, in nanoseconds (the unit of a Go duration). */
  const MaxResponseTime: int := 5_000_000_000
  const SuccessWeight: real := 0.3
  const TimeWeight: real := 0.7
  /** Fraction of the gap to the target that one observation closes. */
  const SmoothingRate: real := 0.1

  function Min(a: real, b: real): real { if a < b then a else b }
  function Max(a: real, b: real): real { if a < b then b else a }

  /** max(0, min(1, x)): the normalisation both formulas end with. */
  function Clamp01(x: real): (r: real)
    ensures 0.0 <= r <= 1.0
    ensures 0.0 <= x <= 1.0 ==> r == x
    ensures x < 0.0 ==> r == 0.0
    ensures x > 1.0 ==> r == 1.0
  {
    Max(0.0, Min(1.0, x))
  }

  predicate InUnitRange(x: real) { 0.0 <= x <= 1.0 }

  predicate MetricsInUnitRange(m: ReputationMetrics) {
    InUnitRange(m.transactionSuccess) && InUnitRange(m.responseTime)
    && InUnitRange(m.uptimePercentage) && InUnitRange(m.dataQuality)
  }

  /** Coordinate-wise order on metrics. */
  predicate AtMost(m: ReputationMetrics, n: ReputationMetrics) {
    m.transactionSuccess <= n.transactionSuccess && m.responseTime <= n.responseTime
    && m.uptimePercentage <= n.uptimePercentage && m.dataQuality <= n.dataQuality
  }

  function WeightedScore(m: ReputationMetrics): real {
    m.transactionSuccess * TransactionWeight + m.responseTime * ResponseWeight
    + m.uptimePercentage * UptimeWeight + m.dataQuality * QualityWeight
  }

  /** The reputation of a node from its metrics; always a score in [0, 1]. */
  function CalculateReputation(metrics: ReputationMetrics): (r: real)
    ensures 0.0 <= r <= 1.0
  {
    Clamp01(WeightedScore(metrics))
  }

  /** Perfect metrics give full reputation, all-zero metrics give none. */
  lemma CalculateReputationExtremes()
    ensures CalculateReputation(ReputationMetrics(1.0, 1.0, 1.0, 1.0)) == 1.0
    ensures CalculateReputation(ReputationMetrics(0.0, 0.0, 0.0, 0.0)) == 0.0
  {
  }

  /** Improving any metric never lowers the reputation. */
  lemma CalculateReputationMonotone(m: ReputationMetrics, n: ReputationMetrics)
    requires AtMost(m, n)
    ensures CalculateReputation(m) <= CalculateReputation(n)
  {
  }

  /**
   * With every metric already normalised the clamp never fires: the reputation
   * is the plain weighted sum, whose weights total 1.
   */
  lemma CalculateReputationUnclamped(m: ReputationMetrics)
    requires MetricsInUnitRange(m)
    ensures TransactionWeight + ResponseWeight + UptimeWeight + QualityWeight == 1.0
    ensures CalculateReputation(m)
         == 0.4 * m.transactionSuccess + 0.2 * m.responseTime + 0.2 * m.uptimePercentage + 0.2 * m.dataQuality
  {
  }

  /** 1 - min(1, responseTime / 5s): full credit for an instant answer, none from five seconds on. */
  function TimeImpact(responseTime: int): (t: real)
    ensures responseTime >= MaxResponseTime ==> t == 0.0
    ensures responseTime >= 0 ==> 0.0 <= t <= 1.0
    ensures responseTime == 0 ==> t == 1.0
  {
    1.0 - Min(1.0, responseTime as real / MaxResponseTime as real)
  }

  function SuccessImpact(success: bool): real { if success then 1.0 else 0.0 }

  /** The value one observation pulls the reputation towards. */
  function Target(success: bool, responseTime: int): (t: real)
    ensures responseTime >= 0 ==> 0.0 <= t <= 1.0
  {
    SuccessImpact(success) * SuccessWeight + TimeImpact(responseTime) * TimeWeight
  }

  /** Smoothed reputation after one outcome; always in [0, 1]. */
  function UpdateReputationBasedOnPerformance(currentRep: real, success: bool, responseTime: int): (r: real)
    ensures 0.0 <= r <= 1.0
  {
    Clamp01(currentRep + (Target(success, responseTime) - currentRep) * SmoothingRate)
  }

  /**
   * From a reputation in [0, 1] and a non-negative response time, one update
   * moves exactly a tenth of the way to the target and so lands between the
   * old reputation and the target.
   */
  lemma SmoothingClosesTenthOfGap(currentRep: real, success: bool, responseTime: int)
    requires 0.0 <= currentRep <= 1.0 && responseTime >= 0
    ensures var r := UpdateReputationBasedOnPerformance(currentRep, success, responseTime);
            var t := Target(success, responseTime);
            && r == currentRep + 0.1 * (t - currentRep)
            && Min(currentRep, t) <= r <= Max(currentRep, t)
  {
  }

  /** A successful instant answer moves 0.5 to 0.55. */
  lemma UpdateFromHalfOnInstantSuccess()
    ensures UpdateReputationBasedOnPerformance(0.5, true, 0) == 0.55
  {
  }
}
