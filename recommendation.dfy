/**
 * The recommendation shown for an EPS: one of three tiers chosen by the
 * thresholds 40 and 70.
 */
module Recommendation {

  /** Critically low, moderate, strong. */
  datatype Tier = Critical | Moderate | Strong

  /** The tier for a score: below 40 is critical, below 70 moderate, and
      anything else strong, so 40 itself is moderate and 70 itself strong. */
  function Recommend(eps: real): (t: Tier)
    ensures t == Critical <==> eps < 40.0
    ensures t == Moderate <==> 40.0 <= eps < 70.0
    ensures t == Strong <==> 70.0 <= eps
  {
    if eps < 40.0 then Critical
    else if eps < 70.0 then Moderate
    else Strong
  }

  /** The order of the tiers, worst first. */
  function Rank(t: Tier): nat {
    match t
    case Critical => 0
    case Moderate => 1
    case Strong => 2
  }

  /** A higher score never yields a lower tier. */
  lemma RecommendMonotone(e1: real, e2: real)
    requires e1 <= e2
    ensures Rank(Recommend(e1)) <= Rank(Recommend(e2))
  {
  }

  /** The thresholds belong to the upper tier. */
  lemma Boundaries()
    ensures Recommend(40.0) == Moderate
    ensures Recommend(70.0) == Strong
  {
  }
}
