/**
 * The alert policy (src/advanced-alerting.ts): look up the closest pothole
 * and alert when it lies within ALERT_THRESHOLD_METERS, inclusive. The
 * threshold is a parameter.
 */
module AdvancedAlerting {
  import opened JsValues
  import opened Backend
  import opened Rpcs

  /**
   * The decision AS WRITTEN: only `undefined` (a failed lookup) gives
   * `false`; for `null` (no potholes) `closest.distance` throws a TypeError,
   * shown as `None`.
   */
  function AlertDecisionAsWritten(closest: Proximity, threshold: real): (r: Option<bool>)
    ensures closest.Failure? ==> r == Some(false)
    ensures closest.NotFound? ==> r == None
    ensures closest.Found? ==> r == Some(closest.distance <= threshold)
  {
    match closest
    case Failure => Some(false)
    case NotFound => None
    case Found(_, distance) => Some(distance <= threshold)
  }

  /** With no potholes at all, the as-written decision throws instead of answering. */
  lemma NoPotholesThrowsAsWritten(threshold: real)
    ensures AlertDecisionAsWritten(NotFound, threshold).None?
  {
  }

  /** The intended decision: absence of information never alerts. */
  function AlertDecision(closest: Proximity, threshold: real): (r: bool)
    ensures r <==> closest.Found? && closest.distance <= threshold
  {
    closest.Found? && closest.distance <= threshold
  }

  /**
   * `shouldAlert` AS WRITTEN: the parameters are declared `(long, lat)` and
   * forwarded as `getClosestPothole(lat, long)`.
   */
  function ShouldAlertAsWritten(nearby: NearbyRpc, long: JsNumber, lat: JsNumber, threshold: real): (r: Option<bool>)
    ensures nearby(lat, long).QueryError? ==> r == Some(false)
    ensures nearby(lat, long) == Rows([]) ==> r == None
    ensures nearby(lat, long).Rows? && |nearby(lat, long).rows| > 0 ==>
      r == Some(nearby(lat, long).rows[0].distMeters <= threshold)
    ensures r == Some(true) <==>
      nearby(lat, long).Rows? && |nearby(lat, long).rows| > 0 && nearby(lat, long).rows[0].distMeters <= threshold
  {
    AlertDecisionAsWritten(GetClosestPothole(nearby(lat, long)), threshold)
  }

  /**
   * src/app.ts calls `shouldAlert(lat, long)`, so the lookup runs at the
   * swapped point: a pothole right at the reported position is missed when
   * the swapped point has only a farther one.
   */
  lemma CallerOrderSwapsQuery(nearby: NearbyRpc, lat: JsNumber, long: JsNumber, threshold: real, id: int)
    requires 0.0 <= threshold
    requires nearby(lat, long) == Rows([NearbyRow(id, 0.0)])
    requires nearby(long, lat) == Rows([NearbyRow(id, threshold + 1.0)])
    ensures ShouldAlertAsWritten(nearby, lat, long, threshold) == Some(false)
    ensures ShouldAlert(nearby, lat, long, threshold)
  {
  }

  /** The intended `shouldAlert(lat, long)`: the lookup at the reported point, `false` without a match. */
  function ShouldAlert(nearby: NearbyRpc, lat: JsNumber, long: JsNumber, threshold: real): (r: bool)
    ensures r <==>
      nearby(lat, long).Rows? && |nearby(lat, long).rows| > 0 && nearby(lat, long).rows[0].distMeters <= threshold
  {
    AlertDecision(GetClosestPothole(nearby(lat, long)), threshold)
  }

  /** Alerting fails safe: a failed lookup and an empty one both give `false`. */
  lemma AlertFailsSafe(nearby: NearbyRpc, lat: JsNumber, long: JsNumber, threshold: real)
    requires nearby(lat, long).QueryError? || nearby(lat, long) == Rows([])
    ensures !ShouldAlert(nearby, lat, long, threshold)
  {
  }

  /** A pothole exactly at the alert threshold alerts. */
  lemma ThresholdTieAlerts(id: int, threshold: real)
    ensures AlertDecision(Found(id, threshold), threshold)
    ensures AlertDecisionAsWritten(Found(id, threshold), threshold) == Some(true)
  {
  }
}
