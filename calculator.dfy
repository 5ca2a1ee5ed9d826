/**
 * The whole calculation: ten counters in, six sub-metrics, the EPS and the
 * recommended tier out, or a division-by-zero error when a denominator is 0
 * (the dashboard's widgets never let that happen, but the arithmetic itself
 * would fail on it).
 */
module Calculator {
  import opened SubMetrics
  import opened Composite
  import opened Recommendation

  datatype Error = DivisionByZero

  datatype Result<T> = Ok(value: T) | Err(error: Error)

  /** What the dashboard displays. */
  datatype Report = Report(metrics: Metrics, eps: real, tier: Tier)

  /** The EPS of the counters. With consistent counters it is a score out
      of 100. */
  function Score(i: Inputs): (eps: real)
    requires Valid(i)
    ensures Consistent(i) ==> 0.0 <= eps <= 100.0
  {
    EpsBetween(Measure(i));
    Eps(Measure(i))
  }

  /** Computes the report, failing exactly when one of the four
      denominators is 0; on success the report's tier is the one its score
      falls in, and consistent counters give sub-metrics and a score in
      [0, 100]. */
  function Evaluate(i: Inputs): (r: Result<Report>)
    ensures r.Err? <==> !Valid(i)
    ensures r.Ok? ==> r.value.metrics == Measure(i) && r.value.eps == Score(i)
    ensures r.Ok? ==> Lowest(r.value.metrics) <= r.value.eps <= Highest(r.value.metrics)
    ensures r.Ok? ==> (r.value.tier == Critical <==> r.value.eps < 40.0)
    ensures r.Ok? ==> (r.value.tier == Moderate <==> 40.0 <= r.value.eps < 70.0)
    ensures r.Ok? ==> (r.value.tier == Strong <==> r.value.eps >= 70.0)
    ensures r.Ok? && Consistent(i) ==>
              AllWithin(r.value.metrics, 0.0, 100.0) && 0.0 <= r.value.eps <= 100.0
  {
    if i.totalDecisions == 0 || i.dataTransactions == 0
       || i.totalHires == 0 || i.totalFeedback == 0 then
      Err(DivisionByZero)
    else
      var m := Measure(i);
      EpsBetween(m);
      var eps := Score(i);
      Ok(Report(m, eps, Recommend(eps)))
  }

  /** More bias complaints, all else equal, strictly raise the EPS: the bias
      index enters the average with a positive weight. */
  lemma MoreComplaintsRaiseScore(i: Inputs, j: Inputs)
    requires Valid(i)
    requires j == i.(biasComplaints := j.biasComplaints)
    requires i.biasComplaints < j.biasComplaints
    ensures Score(i) < Score(j)
  {
    PercentageStrictlyIncreasing(i.biasComplaints, j.biasComplaints, i.totalDecisions);
    EpsMonotone(Measure(i), Measure(j));
  }

  /** More policy violations, all else equal, strictly lower the EPS, even
      once privacy compliance has gone below 0. */
  lemma MoreViolationsLowerScore(i: Inputs, j: Inputs)
    requires Valid(i)
    requires j == i.(policyViolations := j.policyViolations)
    requires i.policyViolations < j.policyViolations
    ensures Score(j) < Score(i)
  {
    PrivacyStrictlyDecreasing(i, j);
    EpsMonotone(Measure(j), Measure(i));
  }

  /** The worked example: 10 complaints, 80 explainable and 90 reviewed of
      100 decisions, 5 violations in 100 transactions, 30 diverse of 100
      hires and 70 positive of 100 pieces of feedback give an EPS of
      3950/70 (about 56.43), which is moderate. */
  lemma WorkedExample()
    ensures Evaluate(Inputs(100, 10, 80, 90, 100, 5, 30, 100, 70, 100))
         == Ok(Report(Metrics(10.0, 80.0, 90.0, 95.0, 30.0, 70.0), 3950.0 / 70.0, Moderate))
  {
  }
}
