/**
 * Derived properties of the backend's stored records: busyness of a
 * location and of a floor, the occupancy percentage of a history record
 * (backend/app/models/location.py, floor.py, occupancy_history.py), and a
 * reservation's activity and duration (backend/app/models/reservation.py).
 */
module Models {
  import opened Wrappers
  import opened Rounding

  /** `round(count / total * 100, 2)`, and 0.0 for a total of 0. */
  function RoundedPercentage(count: int, total: int): (p: real)
    ensures total == 0 ==> p == 0.0
    ensures total != 0 ==> p == RoundTo(count as real / total as real * 100.0, 2)
  {
    if total == 0 then 0.0 else RoundTo(count as real / total as real * 100.0, 2)
  }

  /** For a count between 0 and a positive total, the percentage lies in [0, 100]. */
  lemma PercentageInRange(count: int, total: int)
    requires 0 <= count <= total && total > 0
    ensures 0.0 <= RoundedPercentage(count, total) <= 100.0
  {
    var x := count as real / total as real * 100.0;
    assert 0.0 <= count as real / total as real <= 1.0;
    RoundToBetween(x, 2, 0, 100);
  }

  /** For a fixed positive total, the percentage does not decrease as the count grows. */
  lemma PercentageMonotone(c1: int, c2: int, total: int)
    requires c1 <= c2 && total > 0
    ensures RoundedPercentage(c1, total) <= RoundedPercentage(c2, total)
  {
    DivideMonotone(c1 as real, c2 as real, total as real);
    ScaleMonotone(c1 as real / total as real, c2 as real / total as real, 100.0);
    RoundToMonotone(c1 as real / total as real * 100.0, c2 as real / total as real * 100.0, 2);
  }

  /** `max(0, total - occupied)`. */
  function AvailableSeats(total: int, occupied: int): (n: int)
    ensures n >= 0
    ensures n >= total - occupied
    ensures n == 0 || n == total - occupied
  {
    if total - occupied > 0 then total - occupied else 0
  }

  /** Within capacity, available and occupied seats add up to the total. */
  lemma AvailablePlusOccupied(total: int, occupied: int)
    requires 0 <= occupied <= total
    ensures AvailableSeats(total, occupied) + occupied == total
  {
  }

  datatype Location = Location(totalCapacity: int, currentOccupancy: int)

  function LocationBusyness(l: Location): real {
    RoundedPercentage(l.currentOccupancy, l.totalCapacity)
  }

  function LocationAvailableSeats(l: Location): int {
    AvailableSeats(l.totalCapacity, l.currentOccupancy)
  }

  datatype Floor = Floor(totalSeats: int, occupiedSeats: int)

  function FloorBusyness(f: Floor): real {
    RoundedPercentage(f.occupiedSeats, f.totalSeats)
  }

  function FloorAvailableSeats(f: Floor): int {
    AvailableSeats(f.totalSeats, f.occupiedSeats)
  }

  datatype OccupancyHistory = OccupancyHistory(occupancyCount: int, totalCapacity: int)

  function HistoryPercentage(h: OccupancyHistory): real {
    RoundedPercentage(h.occupancyCount, h.totalCapacity)
  }

  datatype ReservationStatus = Pending | Confirmed | Active | Completed | Cancelled | NoShow

  /** A reservation is active while confirmed or checked in. */
  predicate IsActive(status: ReservationStatus) {
    status == Confirmed || status == Active
  }

  /** Python's `int(x / 60)` on whole seconds: the quotient truncated toward zero. */
  function TruncMinutes(seconds: int): (m: int)
    ensures seconds >= 0 ==> m >= 0 && m * 60 <= seconds < (m + 1) * 60
    ensures seconds < 0 ==> m <= 0 && -m * 60 <= -seconds < (-m + 1) * 60
  {
    if seconds >= 0 then seconds / 60 else -((-seconds) / 60)
  }

  /**
   * `duration_minutes`: the whole minutes between start and end, truncated
   * toward zero; 0 when either time is missing. Times are in seconds.
   */
  function DurationMinutes(start: Option<int>, end: Option<int>): (m: int)
    ensures start.None? || end.None? ==> m == 0
    ensures start.Some? && end.Some? ==> m == TruncMinutes(end.value - start.value)
  {
    if start.Some? && end.Some? then TruncMinutes(end.value - start.value) else 0
  }

  /** Swapping start and end negates the duration, and equal times give 0. */
  lemma DurationAntisymmetric(s: int, e: int)
    ensures DurationMinutes(Some(s), Some(e)) == -DurationMinutes(Some(e), Some(s))
    ensures DurationMinutes(Some(s), Some(s)) == 0
  {
  }

  /** Moving the end later never shortens the duration. */
  lemma DurationMonotone(s: int, e1: int, e2: int)
    requires e1 <= e2
    ensures DurationMinutes(Some(s), Some(e1)) <= DurationMinutes(Some(s), Some(e2))
  {
    var a, b := e1 - s, e2 - s;
    if a < 0 && b >= 0 {
    } else if a < 0 {
      assert (-b) / 60 <= (-a) / 60 by { DivMonotone(-b, -a); }
    } else {
      DivMonotone(a, b);
    }
  }

  lemma DivMonotone(a: int, b: int)
    requires 0 <= a <= b
    ensures a / 60 <= b / 60
  {
  }
}
