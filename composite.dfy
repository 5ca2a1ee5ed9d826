/**
 * The composite Ethical Propensity Score: a fixed-weight average of the six
 * sub-metrics, with weights 15, 10, 10, 10, 15 and 10 divided by their sum.
 * Every weight is positive, bias index included, so a higher bias index
 * raises the score.
 */
module Composite {
  import opened SubMetrics

  /** The sum of the six weights, by which the weighted sum is divided. */
  function WeightsSum(): (s: int)
    ensures s == 70
  {
    15 + 10 + 10 + 10 + 15 + 10
  }

  function Min(a: real, b: real): real { if a <= b then a else b }
  function Max(a: real, b: real): real { if a <= b then b else a }

  /** The smallest of the six sub-metrics. */
  function Lowest(m: Metrics): real {
    Min(Min(Min(m.biasIndex, m.transparencyScore), Min(m.accountabilityIndex, m.privacyCompliance)),
        Min(m.fairnessIndex, m.stakeholderSentiment))
  }

  /** The largest of the six sub-metrics. */
  function Highest(m: Metrics): real {
    Max(Max(Max(m.biasIndex, m.transparencyScore), Max(m.accountabilityIndex, m.privacyCompliance)),
        Max(m.fairnessIndex, m.stakeholderSentiment))
  }

  /** The EPS of six sub-metrics: their weighted sum divided by the sum of
      the weights. */
  function Eps(m: Metrics): real
  {
    ( m.biasIndex * 15.0
    + m.transparencyScore * 10.0
    + m.accountabilityIndex * 10.0
    + m.privacyCompliance * 10.0
    + m.fairnessIndex * 15.0
    + m.stakeholderSentiment * 10.0
    ) / WeightsSum() as real
  }

  /** As an average with positive weights, the EPS lies between the
      smallest and the largest of the six sub-metrics. */
  lemma EpsBetween(m: Metrics)
    ensures Lowest(m) <= Eps(m) <= Highest(m)
  {
    var lo, hi := Lowest(m), Highest(m);
    assert lo <= m.biasIndex <= hi && lo <= m.transparencyScore <= hi;
    assert lo <= m.accountabilityIndex <= hi && lo <= m.privacyCompliance <= hi;
    assert lo <= m.fairnessIndex <= hi && lo <= m.stakeholderSentiment <= hi;
    var sum := m.biasIndex * 15.0 + m.transparencyScore * 10.0
             + m.accountabilityIndex * 10.0 + m.privacyCompliance * 10.0
             + m.fairnessIndex * 15.0 + m.stakeholderSentiment * 10.0;
    assert Eps(m) == sum / 70.0;
    assert lo * 70.0 <= sum <= hi * 70.0;
  }

  /** Sub-metrics that all lie in [lo, hi] give an EPS in [lo, hi]; in
      particular sub-metrics in [0, 100] give an EPS in [0, 100]. */
  lemma EpsWithin(m: Metrics, lo: real, hi: real)
    requires AllWithin(m, lo, hi)
    ensures lo <= Eps(m) <= hi
  {
    EpsBetween(m);
    assert lo <= Lowest(m) && Highest(m) <= hi;
  }

  /** Six equal sub-metrics give that value as the EPS. */
  lemma EpsOfUniform(c: real)
    ensures Eps(Metrics(c, c, c, c, c, c)) == c
  {
  }

  /** Each sub-metric of `m` is at most the matching one of `n`. */
  predicate Below(m: Metrics, n: Metrics) {
    && m.biasIndex <= n.biasIndex
    && m.transparencyScore <= n.transparencyScore
    && m.accountabilityIndex <= n.accountabilityIndex
    && m.privacyCompliance <= n.privacyCompliance
    && m.fairnessIndex <= n.fairnessIndex
    && m.stakeholderSentiment <= n.stakeholderSentiment
  }

  /** The EPS never falls when any sub-metric rises, and it rises strictly
      when at least one of them does: no weight is zero or negative. */
  lemma EpsMonotone(m: Metrics, n: Metrics)
    requires Below(m, n)
    ensures Eps(m) <= Eps(n)
    ensures m != n ==> Eps(m) < Eps(n)
  {
  }
}
