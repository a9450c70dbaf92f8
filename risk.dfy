/** The raw risk score and the synthetic attrition label (`left`) derived from
    the five driver fields. Arithmetic is on exact reals. */
module Risk {

  /** The five driver fields of one employee row. */
  datatype Drivers = Drivers(satisfaction: real, engagement: real, lastHike: real,
                             overtime: real, distance: real)

  /** A score above this marks the row as having left. */
  const LEAVE_THRESHOLD: real := 5.5

  /** The documented bounds of the drivers: satisfaction and engagement in
      [1, 10], months since the last hike in [0, 36], monthly overtime in
      [0, 80], commute in [1, 40] km. */
  predicate InBounds(d: Drivers) {
    && 1.0 <= d.satisfaction <= 10.0 && 1.0 <= d.engagement <= 10.0
    && 0.0 <= d.lastHike <= 36.0 && 0.0 <= d.overtime <= 80.0
    && 1.0 <= d.distance <= 40.0
  }

  /** The fixed weighted sum: weights 0.25, 0.25, 0.20, 0.15, 0.15 on terms each
      scaled to the range 0..10. As the weights sum to one, in-bound drivers
      give a score in [0, 10]. */
  function RiskScore(d: Drivers): (r: real)
    ensures InBounds(d) ==> 0.0 <= r <= 10.0
  {
    (10.0 - d.satisfaction) * 0.25 +
    (10.0 - d.engagement) * 0.25 +
    (d.lastHike / 36.0) * 10.0 * 0.2 +
    (d.overtime / 80.0) * 10.0 * 0.15 +
    (d.distance / 40.0) * 10.0 * 0.15
  }

  /** `(risk_score > 5.5).astype(int)`. */
  function Left(d: Drivers): (r: int)
    ensures r == 0 || r == 1
  {
    if RiskScore(d) > LEAVE_THRESHOLD then 1 else 0
  }

  /** Row a is nowhere riskier than row b: at least as satisfied and engaged,
      no longer since a hike, no more overtime, no longer a commute. */
  predicate NoRiskier(a: Drivers, b: Drivers) {
    && a.satisfaction >= b.satisfaction && a.engagement >= b.engagement
    && a.lastHike <= b.lastHike && a.overtime <= b.overtime && a.distance <= b.distance
  }

  /** The score is non-increasing in satisfaction and engagement and
      non-decreasing in the other three drivers; so is the label. */
  lemma RiskMonotone(a: Drivers, b: Drivers)
    requires NoRiskier(a, b)
    ensures RiskScore(a) <= RiskScore(b)
    ensures Left(a) <= Left(b)
  {
  }

  /** Every value the default filler can draw for the drivers is in bounds. */
  lemma DefaultDriversInBounds(d: Drivers)
    requires 1.0 <= d.satisfaction <= 9.0 && 1.0 <= d.engagement <= 9.0
    requires 0.0 <= d.lastHike <= 35.0 && 0.0 <= d.overtime <= 79.0 && 1.0 <= d.distance <= 39.0
    ensures InBounds(d)
    ensures 0.0 < RiskScore(d) < 10.0
  {
  }

  /** A contented row (satisfaction and engagement 9, hike 1 month ago,
      2 hours overtime, 3 km commute) scores below 1 and is labelled 0. */
  lemma ContentedRowStays()
    ensures var d := Drivers(9.0, 9.0, 1.0, 2.0, 3.0);
            RiskScore(d) < 1.0 && Left(d) == 0
  {
  }

  /** A discontented row (satisfaction and engagement 1, hike 35 months ago,
      79 hours overtime, 39 km commute) scores above 9 and is labelled 1. */
  lemma DiscontentedRowLeaves()
    ensures var d := Drivers(1.0, 1.0, 35.0, 79.0, 39.0);
            RiskScore(d) > 9.0 && Left(d) == 1
  {
  }
}
