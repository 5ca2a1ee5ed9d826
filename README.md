# Ethical Propensity Score calculation

A Dafny model of the calculation inside the Ethical Propensity Score (EPS)
dashboard, a Streamlit page for judging an AI hiring pipeline. The page reads
ten counters, derives six percentage sub-metrics from them, averages the
sub-metrics with fixed weights into the EPS, and shows one of three
recommendations depending on where the EPS falls.

The model is pure: the counters are a datatype `SubMetrics.Inputs` of natural
numbers (every input widget has a minimum of 0 or 1), the four denominators'
minimum of 1 is the predicate `SubMetrics.Valid`, and Python's `/` is exact
division on `real`. Four modules follow the three parts of the calculation:

- `SubMetrics` (`submetrics.dfy`): the six ratios, each numerator over its
  denominator times 100, built on one `Percentage` function.
- `Composite` (`composite.dfy`): the 15/10/10/10/15/10 weighted sum divided by
  the weights' sum, 70.
- `Recommendation` (`recommendation.dfy`): the critical / moderate / strong
  tiers at thresholds 40 and 70.
- `Calculator` (`calculator.dfy`): all of it together, returning
  `Err(DivisionByZero)` when a denominator is 0, which is where Python would
  raise `ZeroDivisionError` if the widgets let a 0 through.

Two behaviours of the code are kept as they are. The bias index enters the
EPS with a positive weight, so more bias complaints raise the score
(`Calculator.MoreComplaintsRaiseScore`). Nothing is clamped: a numerator
larger than its denominator gives a sub-metric above 100, and more policy
violations than data transactions give a negative privacy compliance
(`SubMetrics.PrivacyCompliance`).

## Model

| member | source | states |
|---|---|---|
| `SubMetrics.Percentage` | app.py:35-50 | the ratio times 100: result times the denominator is 100 times the numerator; 0 iff the numerator is 0, 100 iff numerator equals denominator, negative iff the numerator is, above 100 iff the numerator exceeds the denominator |
| `SubMetrics.PercentageStrictlyIncreasing` | app.py:35-50 | a larger numerator over the same denominator gives a strictly larger percentage |
| `SubMetrics.BiasIndex` | app.py:35 | bias complaints per 100 decisions; never negative; at most 100 iff complaints do not exceed decisions |
| `SubMetrics.TransparencyScore` | app.py:38 | explainable decisions per 100 decisions; never negative; at most 100 iff they do not exceed decisions |
| `SubMetrics.AccountabilityIndex` | app.py:41 | human-reviewed decisions per 100 decisions; never negative; at most 100 iff they do not exceed decisions |
| `SubMetrics.PrivacyCompliance` | app.py:44 | violation-free transactions per 100 transactions; never above 100; exactly 100 iff there are no violations; negative iff violations exceed transactions (no clamping) |
| `SubMetrics.FairnessIndex` | app.py:47 | diverse hires per 100 hires; never negative; at most 100 iff they do not exceed hires |
| `SubMetrics.StakeholderSentiment` | app.py:50 | positive feedback per 100 pieces of feedback; never negative; at most 100 iff it does not exceed the total |
| `SubMetrics.Measure` | app.py:19-50 | the six sub-metrics, defined whenever the four denominators are at least 1; all six lie in [0, 100] iff every numerator is at most its denominator and violations do not exceed transactions |
| `SubMetrics.PrivacyStrictlyDecreasing` | app.py:44 | each extra policy violation strictly lowers privacy compliance, below 0 too |
| `Composite.WeightsSum` | app.py:54 | the weights sum to 70 |
| `Composite.EpsBetween` | app.py:55-62 | the EPS lies between the smallest and the largest of the six sub-metrics |
| `Composite.EpsWithin` | app.py:55-62 | sub-metrics all in [lo, hi] give an EPS in [lo, hi], so sub-metrics in [0, 100] give an EPS in [0, 100] |
| `Composite.EpsOfUniform` | app.py:54-62 | six equal sub-metrics give that value as the EPS: the weights are divided by their own sum |
| `Composite.EpsMonotone` | app.py:55-62 | raising any sub-metric, bias index included, never lowers the EPS, and raises it strictly if any sub-metric changes |
| `Recommendation.Recommend` | app.py:97-102 | critical iff EPS < 40, moderate iff 40 <= EPS < 70, strong iff EPS >= 70: a total, disjoint partition |
| `Recommendation.RecommendMonotone` | app.py:97-102 | a higher EPS never yields a lower tier |
| `Recommendation.Boundaries` | app.py:97-102 | an EPS of exactly 40 is moderate and of exactly 70 is strong |
| `Calculator.Score` | app.py:35-62 | the EPS of the counters; in [0, 100] whenever the counters are consistent |
| `Calculator.Evaluate` | app.py:19-62 | fails exactly when a denominator is 0; otherwise returns the six sub-metrics and their EPS, the EPS between the smallest and largest sub-metric, the tier matching the EPS, and everything in [0, 100] for consistent counters |
| `Calculator.MoreComplaintsRaiseScore` | app.py:35 | more bias complaints, all else equal, strictly raise the EPS |
| `Calculator.MoreViolationsLowerScore` | app.py:44 | more policy violations, all else equal, strictly lower the EPS |
| `Calculator.WorkedExample` | app.py:35-102 | counters (100, 10, 80, 90, 100, 5, 30, 100, 70, 100) give sub-metrics 10, 80, 90, 95, 30, 70, EPS 3950/70, tier moderate |

## Left out

- The Streamlit page (title, headers, columns, number inputs, metric tiles, success/error/warning/info boxes) is presentation and input/output; only the widgets' minimum values survive, as `SubMetrics.Valid` and the `nat` counter types.
- The Plotly gauge: a charting library call with no logic; its red/yellow/green bands repeat the tier thresholds.
- The two-decimal formatting of the sub-metrics and the EPS: float-to-string rounding.
- IEEE floating-point rounding of Python's `/` and of the sums: the model computes with exact reals.
- The `__main__` entry point that runs the page.
