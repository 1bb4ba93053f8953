/**
 * The admin's location card (frontend/src/components/cards/LocationCardAdmin.tsx):
 * the occupancy it shows, the percentage and bar colour, and which actions
 * are enabled.
 */
module LocationCardAdmin {
  import opened JsNumber
  import opened Rounding

  datatype Status = Active | Maintenance

  datatype BarColour = Green | Yellow | Red

  /** The occupancy shown: a location under maintenance holds nobody. */
  function SafeCurrent(status: Status, current: int): (r: int)
    ensures status == Maintenance ==> r == 0
    ensures status == Active ==> r == current
  {
    if status == Maintenance then 0 else current
  }

  /** `Math.round((safeCurrent / capacity) * 100) || 0`. */
  function OccupancyPercentage(status: Status, current: int, capacity: int): (p: Num)
    ensures p != NaN
    ensures capacity != 0 ==> p == Finite(RoundHalfUp(SafeCurrent(status, current) as real / capacity as real * 100.0) as real)
    ensures capacity == 0 && SafeCurrent(status, current) == 0 ==> p == Finite(0.0)
  {
    OrZero(Round(Times(Divide(SafeCurrent(status, current) as real, capacity as real), 100.0)))
  }

  /** Red above 75 percent, yellow above 50, green otherwise. */
  function Bar(p: Num): (c: BarColour)
    ensures c == Red <==> Above(p, 75.0)
    ensures c == Yellow <==> !Above(p, 75.0) && Above(p, 50.0)
    ensures c == Green <==> !Above(p, 50.0)
  {
    if Above(p, 75.0) then Red else if Above(p, 50.0) then Yellow else Green
  }

  /** A location under maintenance always shows 0 percent and a green bar. */
  lemma MaintenanceShowsEmpty(current: int, capacity: int)
    ensures OccupancyPercentage(Maintenance, current, capacity) == Finite(0.0)
    ensures Bar(OccupancyPercentage(Maintenance, current, capacity)) == Green
  {
    if capacity != 0 {
      RoundHalfUpInt(0);
      assert 0.0 / capacity as real * 100.0 == 0.0;
    }
  }

  /** For 0 ≤ current ≤ capacity the percentage lies in [0, 100]. */
  lemma PercentageInRange(status: Status, current: int, capacity: int)
    requires 0 <= current <= capacity && capacity > 0
    ensures var p := OccupancyPercentage(status, current, capacity);
      p.Finite? && 0.0 <= p.value <= 100.0
  {
    var s := SafeCurrent(status, current);
    var x := s as real / capacity as real * 100.0;
    assert 0.0 <= s as real / capacity as real <= 1.0;
    RoundHalfUpBetween(x, 0, 100);
  }

  /** The analytics action is enabled only for an active location. */
  predicate AnalyticsEnabled(status: Status) {
    status == Active
  }

  /** The edit action is enabled for every location. */
  predicate EditEnabled(status: Status) {
    true
  }

  /**
   * The analytics button is enabled exactly on the cards whose figures are
   * live: an enabled card shows the location's own count, and a disabled
   * one shows 0 percent and a green bar whatever its counts. Editing is
   * always possible.
   */
  lemma ActionsFollowStatus(status: Status, current: int, capacity: int)
    ensures AnalyticsEnabled(status) ==> SafeCurrent(status, current) == current
    ensures !AnalyticsEnabled(status) ==>
      OccupancyPercentage(status, current, capacity) == Finite(0.0)
        && Bar(OccupancyPercentage(status, current, capacity)) == Green
    ensures EditEnabled(status)
  {
    if !AnalyticsEnabled(status) {
      MaintenanceShowsEmpty(current, capacity);
    }
  }
}
