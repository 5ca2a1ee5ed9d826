/**
 * The six ratio sub-metrics of the Ethical Propensity Score (EPS).
 *
 * Each sub-metric is a counter divided by a total, times 100. Python's `/`
 * is modelled as exact division on `real`s. Nothing is clamped: a numerator
 * larger than its denominator gives a value above 100, and more policy
 * violations than data transactions give a negative privacy score.
 */
module SubMetrics {

  /** The ten counters entered on the dashboard. Every input widget has a
      minimum of 0 or 1, so every counter is a natural number. */
  datatype Inputs = Inputs(
    totalDecisions: nat,
    biasComplaints: nat,
    explainableAi: nat,
    humanReviewed: nat,
    dataTransactions: nat,
    policyViolations: nat,
    diverseHires: nat,
    totalHires: nat,
    positiveFeedback: nat,
    totalFeedback: nat
  )

  /** The four denominators have a widget minimum of 1, so none is zero. */
  predicate Valid(i: Inputs) {
    && i.totalDecisions >= 1
    && i.dataTransactions >= 1
    && i.totalHires >= 1
    && i.totalFeedback >= 1
  }

  /** Every numerator lies between 0 and its denominator, and there are no
      more policy violations than data transactions. */
  predicate Consistent(i: Inputs) {
    && i.biasComplaints <= i.totalDecisions
    && i.explainableAi <= i.totalDecisions
    && i.humanReviewed <= i.totalDecisions
    && i.policyViolations <= i.dataTransactions
    && i.diverseHires <= i.totalHires
    && i.positiveFeedback <= i.totalFeedback
  }

  /** The six sub-metrics, in percent. */
  datatype Metrics = Metrics(
    biasIndex: real,
    transparencyScore: real,
    accountabilityIndex: real,
    privacyCompliance: real,
    fairnessIndex: real,
    stakeholderSentiment: real
  )

  /** Every sub-metric lies in [lo, hi]. */
  predicate AllWithin(m: Metrics, lo: real, hi: real) {
    && lo <= m.biasIndex <= hi
    && lo <= m.transparencyScore <= hi
    && lo <= m.accountabilityIndex <= hi
    && lo <= m.privacyCompliance <= hi
    && lo <= m.fairnessIndex <= hi
    && lo <= m.stakeholderSentiment <= hi
  }

  /** `part` as a percentage of `whole`: the result times `whole` is 100
      times `part`, so it lies in [0, 100] exactly when `part` lies in
      [0, whole], and it keeps its sign and its excess over 100 otherwise. */
  function Percentage(part: int, whole: int): (r: real)
    requires whole >= 1
    ensures r * whole as real == part as real * 100.0
    ensures r == 0.0 <==> part == 0
    ensures r == 100.0 <==> part == whole
    ensures r < 0.0 <==> part < 0
    ensures r > 100.0 <==> part > whole
  {
    var w := whole as real;
    var r := (part as real / w) * 100.0;
    assert r * w == part as real * 100.0;
    assert (r - 100.0) * w == (part - whole) as real * 100.0;
    SameSign(r, w);
    SameSign(r - 100.0, w);
    r
  }

  /** A larger part of the same whole is a strictly larger percentage. */
  lemma {:induction false} PercentageStrictlyIncreasing(a: int, b: int, whole: int)
    requires whole >= 1
    requires a < b
    ensures Percentage(a, whole) < Percentage(b, whole)
  {
    var ra, rb, w := Percentage(a, whole), Percentage(b, whole), whole as real;
    assert ra * w == a as real * 100.0 && rb * w == b as real * 100.0;
    assert (rb - ra) * w == rb * w - ra * w;
    assert rb * w - ra * w == (b - a) as real * 100.0;
    assert (b - a) as real * 100.0 > 0.0;
    SameSign(rb - ra, w);
  }

  /** Multiplying by a positive factor keeps the sign. */
  lemma SameSign(x: real, y: real)
    requires y > 0.0
    ensures x * y > 0.0 <==> x > 0.0
    ensures x * y == 0.0 <==> x == 0.0
    ensures x * y < 0.0 <==> x < 0.0
  {
  }

  /** Bias index: bias complaints per 100 AI decisions. */
  function BiasIndex(i: Inputs): (r: real)
    requires Valid(i)
    ensures r * i.totalDecisions as real == i.biasComplaints as real * 100.0
    ensures r >= 0.0
    ensures r <= 100.0 <==> i.biasComplaints <= i.totalDecisions
  {
    Percentage(i.biasComplaints, i.totalDecisions)
  }

  /** Transparency score: explainable decisions per 100 AI decisions. */
  function TransparencyScore(i: Inputs): (r: real)
    requires Valid(i)
    ensures r * i.totalDecisions as real == i.explainableAi as real * 100.0
    ensures r >= 0.0
    ensures r <= 100.0 <==> i.explainableAi <= i.totalDecisions
  {
    Percentage(i.explainableAi, i.totalDecisions)
  }

  /** Accountability index: human-reviewed decisions per 100 AI decisions. */
  function AccountabilityIndex(i: Inputs): (r: real)
    requires Valid(i)
    ensures r * i.totalDecisions as real == i.humanReviewed as real * 100.0
    ensures r >= 0.0
    ensures r <= 100.0 <==> i.humanReviewed <= i.totalDecisions
  {
    Percentage(i.humanReviewed, i.totalDecisions)
  }

  /** Privacy compliance: violation-free transactions per 100 transactions.
      It is exactly 100 with no violations, never above 100, and negative
      once violations outnumber transactions. */
  function PrivacyCompliance(i: Inputs): (r: real)
    requires Valid(i)
    ensures r * i.dataTransactions as real
         == (i.dataTransactions - i.policyViolations) as real * 100.0
    ensures r <= 100.0
    ensures r == 100.0 <==> i.policyViolations == 0
    ensures r >= 0.0 <==> i.policyViolations <= i.dataTransactions
    ensures r < 0.0 <==> i.policyViolations > i.dataTransactions
  {
    Percentage(i.dataTransactions - i.policyViolations, i.dataTransactions)
  }

  /** Fairness index: diverse hires per 100 hires. */
  function FairnessIndex(i: Inputs): (r: real)
    requires Valid(i)
    ensures r * i.totalHires as real == i.diverseHires as real * 100.0
    ensures r >= 0.0
    ensures r <= 100.0 <==> i.diverseHires <= i.totalHires
  {
    Percentage(i.diverseHires, i.totalHires)
  }

  /** Stakeholder sentiment: positive feedback per 100 pieces of feedback. */
  function StakeholderSentiment(i: Inputs): (r: real)
    requires Valid(i)
    ensures r * i.totalFeedback as real == i.positiveFeedback as real * 100.0
    ensures r >= 0.0
    ensures r <= 100.0 <==> i.positiveFeedback <= i.totalFeedback
  {
    Percentage(i.positiveFeedback, i.totalFeedback)
  }

  /** All six sub-metrics; they all lie in [0, 100] exactly when the
      counters are consistent. */
  function Measure(i: Inputs): (m: Metrics)
    requires Valid(i)
    ensures AllWithin(m, 0.0, 100.0) <==> Consistent(i)
  {
    Metrics(
      BiasIndex(i),
      TransparencyScore(i),
      AccountabilityIndex(i),
      PrivacyCompliance(i),
      FairnessIndex(i),
      StakeholderSentiment(i))
  }

  /** Privacy compliance falls strictly with every extra policy violation,
      and nothing stops it at 0. */
  lemma PrivacyStrictlyDecreasing(i: Inputs, j: Inputs)
    requires Valid(i)
    requires j == i.(policyViolations := j.policyViolations)
    requires i.policyViolations < j.policyViolations
    ensures PrivacyCompliance(j) < PrivacyCompliance(i)
  {
    PercentageStrictlyIncreasing(
      j.dataTransactions - j.policyViolations,
      i.dataTransactions - i.policyViolations,
      i.dataTransactions);
  }
}
