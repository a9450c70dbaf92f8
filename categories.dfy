/** `label_risk`: the three risk tiers of a flight-risk percentage. */
module Categories {

  const HIGH: string := "High Risk"
  const MEDIUM: string := "Medium Risk"
  const LOW: string := "Low Risk"

  /** The tiers partition the score line at 70 and 50: each score gets exactly
      one label, and each label is given on exactly one interval. */
  function LabelRisk(score: real): (r: string)
    ensures r == HIGH || r == MEDIUM || r == LOW
    ensures r == HIGH <==> score >= 70.0
    ensures r == MEDIUM <==> 50.0 <= score < 70.0
    ensures r == LOW <==> score < 50.0
  {
    if score >= 70.0 then HIGH
    else if score >= 50.0 then MEDIUM
    else LOW
  }

  /** The order of the tiers. */
  function Rank(tier: string): nat {
    if tier == HIGH then 2 else if tier == MEDIUM then 1 else 0
  }

  /** A higher score never gets a lower tier. */
  lemma LabelMonotone(a: real, b: real)
    requires a <= b
    ensures Rank(LabelRisk(a)) <= Rank(LabelRisk(b))
  {
  }
}
