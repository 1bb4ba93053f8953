/**
 * The seat refresh worker (backend/app/services/seat_refresh_worker.py).
 * Every tick it nudges the seat table towards a target occupancy (the
 * drift), with a little maintenance churn, and then caches a snapshot of
 * the table for the AI demo page: one entry and one encoded line per seat,
 * and the seats grouped by floor.
 *
 * The random draws are parameters. `random.sample(pool, change)` is the
 * first `change` members of the pool met in `order`, a random ordering of
 * all the seats. Each `random.random() < p` is a flag, and each
 * `random.choice(pool)` is `pool[pick % |pool|]`. The clock reading
 * stored as `last_updated` is a parameter too.
 */
module SeatRefresh {
  import opened Wrappers
  import opened Strings
  import opened Sorting
  import opened Rounding
  import opened Store
  import opened Grouping

  // ------------------------------------------------------------------
  // The drift
  // ------------------------------------------------------------------

  /** `len([s for s in seats if s.status == st])`. */
  function Count(s: seq<Seat>, st: SeatStatus): (n: nat)
    ensures n <= |s|
  {
    if s == [] then 0 else (if s[0].status == st then 1 else 0) + Count(s[1..], st)
  }

  lemma {:induction false} CountUpdate(s: seq<Seat>, i: nat, v: Seat, st: SeatStatus)
    requires i < |s|
    ensures Count(s[i := v], st)
      == Count(s, st) - (if s[i].status == st then 1 else 0) + (if v.status == st then 1 else 0)
  {
    if i > 0 {
      assert s[i := v][1..] == s[1..][i - 1 := v];
      CountUpdate(s[1..], i - 1, v, st);
    } else {
      assert s[i := v][1..] == s[1..];
    }
  }

  lemma {:induction false} CountNone(s: seq<Seat>, st: SeatStatus)
    requires forall k :: 0 <= k < |s| ==> s[k].status != st
    ensures Count(s, st) == 0
  {
    if s != [] {
      CountNone(s[1..], st);
    }
  }

  /** Python's `int(x)` on a float: truncation toward zero. */
  function Trunc(x: real): int {
    if x >= 0.0 then x.Floor else -((-x).Floor)
  }

  /** Truncation moves toward zero by less than one. */
  lemma TruncBounds(x: real)
    ensures 0.0 <= x ==> 0 <= Trunc(x) && Trunc(x) as real <= x < Trunc(x) as real + 1.0
    ensures x < 0.0 ==> Trunc(x) <= 0 && Trunc(x) as real - 1.0 < x <= Trunc(x) as real
  {
  }

  function Min3(a: int, b: int, c: int): (m: int)
    ensures m <= a && m <= b && m <= c
    ensures m == a || m == b || m == c
  {
    if a <= b && a <= c then a else if b <= c then b else c
  }

  /** `desired_occupied = int(total * target_occupancy)`. */
  function Desired(total: nat, target: real): int {
    Trunc(total as real * target)
  }

  /** `max_changes = max(1, int(total * drift_ratio))`: at least one seat may move. */
  function MaxChanges(total: nat, ratio: real): (m: int)
    ensures m >= 1
  {
    var t := Trunc(total as real * ratio);
    if t > 1 then t else 1
  }

  /** Every entry of `order` is a seat index. */
  predicate IndicesIn(order: seq<nat>, n: nat) {
    forall j :: 0 <= j < |order| ==> order[j] < n
  }

  /** `order` is a random ordering of the `n` seats: each index once. */
  predicate IsOrdering(order: seq<nat>, n: nat) {
    IndicesIn(order, n)
    && (forall i :: 0 <= i < n ==> i in order)
    && (forall j, k :: 0 <= j < k < |order| ==> order[j] != order[k])
  }

  /**
   * `for seat in random.sample(pool, count): seat.status = to`, where the
   * pool is the seats whose status is `from`, and the sample is the first
   * `count` of them met in `order`.
   */
  function FlipInOrder(s: seq<Seat>, order: seq<nat>, from: SeatStatus, to: SeatStatus, count: nat): (r: seq<Seat>)
    requires IndicesIn(order, |s|)
    ensures |r| == |s|
    decreases |order|
  {
    if order == [] || count == 0 then s
    else
      var i := order[0];
      if s[i].status == from then FlipInOrder(s[i := s[i].(status := to)], order[1..], from, to, count - 1)
      else FlipInOrder(s, order[1..], from, to, count)
  }

  /** A flip only moves seats from `from` to `to`, and changes nothing else about them. */
  lemma {:induction false} FlipMoves(s: seq<Seat>, order: seq<nat>, from: SeatStatus, to: SeatStatus, count: nat)
    requires IndicesIn(order, |s|)
    ensures forall i :: 0 <= i < |s| ==>
      FlipInOrder(s, order, from, to, count)[i] == s[i]
      || (s[i].status == from && FlipInOrder(s, order, from, to, count)[i] == s[i].(status := to))
    decreases |order|
  {
    if order != [] && count != 0 {
      var i := order[0];
      if s[i].status == from {
        var s' := s[i := s[i].(status := to)];
        FlipMoves(s', order[1..], from, to, count - 1);
      } else {
        FlipMoves(s, order[1..], from, to, count);
      }
    }
  }

  /**
   * When the ordering reaches every seat of the pool, exactly
   * `min(count, pool size)` seats move from `from` to `to`.
   */
  lemma {:induction false} FlipCounts(s: seq<Seat>, order: seq<nat>, from: SeatStatus, to: SeatStatus, count: nat)
    requires from != to
    requires IndicesIn(order, |s|)
    requires forall j, k :: 0 <= j < k < |order| ==> order[j] != order[k]
    requires forall i :: 0 <= i < |s| && s[i].status == from ==> i in order
    ensures Count(FlipInOrder(s, order, from, to, count), to)
      == Count(s, to) + Min3(count, Count(s, from), count)
    ensures Count(FlipInOrder(s, order, from, to, count), from)
      == Count(s, from) - Min3(count, Count(s, from), count)
    decreases |order|
  {
    if order == [] {
      CountNone(s, from);
    } else if count != 0 {
      var i := order[0];
      var rest := order[1..];
      assert order == [i] + rest;
      if s[i].status == from {
        var s' := s[i := s[i].(status := to)];
        CountUpdate(s, i, s[i].(status := to), to);
        CountUpdate(s, i, s[i].(status := to), from);
        forall i' | 0 <= i' < |s'| && s'[i'].status == from ensures i' in rest {
          assert i' != i && s'[i'] == s[i'];
        }
        FlipCounts(s', rest, from, to, count - 1);
      } else {
        forall i' | 0 <= i' < |s| && s[i'].status == from ensures i' in rest {
          assert i' != i;
        }
        FlipCounts(s, rest, from, to, count);
      }
    }
  }

  /** The drift phase of `_apply_drift`: move towards `desired_occupied`, by at most `max_changes`. */
  /** What the drift phase does: flip up to `count` seats from `from` to `to`. */
  datatype Plan = Plan(from: SeatStatus, to: SeatStatus, count: nat)

  /**
   * With `delta = desired - occupied`: `min(delta, available, max_changes)`
   * AVAILABLE seats to OCCUPIED when `delta > 0` and some are available,
   * `min(-delta, occupied, max_changes)` OCCUPIED seats back when
   * `delta < 0` and some are occupied, and nothing otherwise.
   */
  function PlanOf(s: seq<Seat>, desired: int, maxChanges: int): (p: Plan)
    requires maxChanges >= 1
    ensures p.from != p.to
    ensures p.count <= Count(s, p.from) && p.count <= maxChanges
  {
    var occupied, available := Count(s, Occupied), Count(s, Available);
    var delta := desired - occupied;
    if delta > 0 && available > 0 then Plan(Available, Occupied, Min3(delta, available, maxChanges))
    else if delta < 0 && occupied > 0 then Plan(Occupied, Available, Min3(-delta, occupied, maxChanges))
    else Plan(Available, Occupied, 0)
  }

  /** The first half of `_apply_drift`: the plan carried out in the order of the sample. */
  function DriftPhase(s: seq<Seat>, order: seq<nat>, desired: int, maxChanges: int): (r: seq<Seat>)
    requires IndicesIn(order, |s|) && maxChanges >= 1
    ensures |r| == |s|
  {
    var p := PlanOf(s, desired, maxChanges);
    FlipInOrder(s, order, p.from, p.to, p.count)
  }

  /**
   * The change in the occupied count the source promises: with
   * `delta = desired - occupied`, `min(delta, available, max_changes)` when
   * `delta > 0`, `-min(-delta, occupied, max_changes)` when `delta < 0`.
   */
  function Change(s: seq<Seat>, desired: int, maxChanges: int): int {
    var occupied, available := Count(s, Occupied), Count(s, Available);
    var delta := desired - occupied;
    if delta > 0 then Min3(delta, available, maxChanges)
    else if delta < 0 then -Min3(-delta, occupied, maxChanges) else 0
  }

  /**
   * With `delta = desired - occupied`, the drift phase moves exactly
   * `min(delta, available, max_changes)` seats to OCCUPIED when `delta > 0`,
   * and exactly `min(-delta, occupied, max_changes)` back to AVAILABLE when
   * `delta < 0`; otherwise the occupied count stays.
   */
  lemma DriftPhaseChange(s: seq<Seat>, order: seq<nat>, desired: int, maxChanges: int)
    requires IsOrdering(order, |s|) && maxChanges >= 1
    ensures Count(DriftPhase(s, order, desired, maxChanges), Occupied) == Count(s, Occupied) + Change(s, desired, maxChanges)
  {
    var p := PlanOf(s, desired, maxChanges);
    FlipCounts(s, order, p.from, p.to, p.count);
    assert Min3(p.count, Count(s, p.from), p.count) == p.count;
  }

  /**
   * The drift phase never overshoots: the occupied count ends between
   * where it was and `desired_occupied`, at most `max_changes` away from
   * where it was.
   */
  lemma DriftNeverOvershoots(s: seq<Seat>, order: seq<nat>, desired: int, maxChanges: int)
    requires IsOrdering(order, |s|) && maxChanges >= 1
    ensures var before, after := Count(s, Occupied), Count(DriftPhase(s, order, desired, maxChanges), Occupied);
      (before <= desired ==> before <= after <= desired)
      && (desired <= before ==> desired <= after <= before)
      && after - before <= maxChanges && before - after <= maxChanges
  {
    DriftPhaseChange(s, order, desired, maxChanges);
  }

  /** The drift phase only moves AVAILABLE seats to OCCUPIED or OCCUPIED seats to AVAILABLE. */
  lemma DriftPhaseMoves(s: seq<Seat>, order: seq<nat>, desired: int, maxChanges: int)
    requires IndicesIn(order, |s|) && maxChanges >= 1
    ensures forall i :: 0 <= i < |s| ==>
      DriftPhase(s, order, desired, maxChanges)[i] == s[i]
      || (s[i].status == Available && DriftPhase(s, order, desired, maxChanges)[i] == s[i].(status := Occupied))
      || (s[i].status == Occupied && DriftPhase(s, order, desired, maxChanges)[i] == s[i].(status := Available))
  {
    var p := PlanOf(s, desired, maxChanges);
    FlipMoves(s, order, p.from, p.to, p.count);
  }

  /** `[i for i, s in enumerate(seats) if s.status == st]`: a pool to choose from. */
  function IndicesWith(s: seq<Seat>, st: SeatStatus): (r: seq<nat>)
    ensures forall j :: 0 <= j < |r| ==> r[j] < |s| && s[r[j]].status == st
    ensures forall i :: 0 <= i < |s| && s[i].status == st ==> i in r
  {
    if s == [] then []
    else
      var init := s[..|s| - 1];
      var r := IndicesWith(init, st) + (if s[|s| - 1].status == st then [|s| - 1] else []);
      assert forall i :: 0 <= i < |init| ==> init[i] == s[i];
      r
  }

  /**
   * One draw of the maintenance churn: when some seat is in `from` and the
   * draw fires, the picked one of them goes to `to`.
   */
  function ChurnStep(s: seq<Seat>, from: SeatStatus, to: SeatStatus, fire: bool, pick: nat): (r: seq<Seat>)
    ensures |r| == |s|
  {
    var pool := IndicesWith(s, from);
    if |pool| > 0 && fire then WithStatus(s, pool[pick % |pool|], to) else s
  }

  /**
   * The maintenance churn: one AVAILABLE seat may go to MAINTENANCE, then
   * one seat in MAINTENANCE may return to AVAILABLE.
   */
  function Churn(s: seq<Seat>, down: bool, downPick: nat, up: bool, upPick: nat): (r: seq<Seat>)
    ensures |r| == |s|
  {
    ChurnStep(ChurnStep(s, Available, Maintenance, down, downPick), Maintenance, Available, up, upPick)
  }

  /** Seat `i` went from `from` to `to`. */
  predicate Moved(s: seq<Seat>, r: seq<Seat>, i: int, from: SeatStatus, to: SeatStatus)
    requires |r| == |s|
  {
    0 <= i < |s| && s[i].status == from && r[i].status == to
  }

  /** At most one seat went from `from` to `to`. */
  ghost predicate AtMostOneMoves(s: seq<Seat>, r: seq<Seat>, from: SeatStatus, to: SeatStatus)
    requires |r| == |s|
  {
    forall i, j :: Moved(s, r, i, from, to) && Moved(s, r, j, from, to) ==> i == j
  }

  /** Every seat is either untouched or went from `from` to `to` with nothing else changed. */
  ghost predicate OnlyMoves(s: seq<Seat>, r: seq<Seat>, from: SeatStatus, to: SeatStatus)
    requires |r| == |s|
  {
    forall i :: 0 <= i < |s| ==> r[i] == s[i] || (s[i].status == from && r[i] == s[i].(status := to))
  }

  /** One draw moves at most one seat, from `from` to `to`, and keeps the occupied count when neither is OCCUPIED. */
  lemma ChurnStepMoves(s: seq<Seat>, from: SeatStatus, to: SeatStatus, fire: bool, pick: nat)
    requires from != to
    ensures OnlyMoves(s, ChurnStep(s, from, to, fire, pick), from, to)
    ensures AtMostOneMoves(s, ChurnStep(s, from, to, fire, pick), from, to)
    ensures from != Occupied && to != Occupied ==> Count(ChurnStep(s, from, to, fire, pick), Occupied) == Count(s, Occupied)
  {
    var pool := IndicesWith(s, from);
    if |pool| > 0 && fire {
      var k := pool[pick % |pool|];
      CountUpdate(s, k, s[k].(status := to), Occupied);
      var r := ChurnStep(s, from, to, fire, pick);
      assert forall i :: Moved(s, r, i, from, to) ==> i == k;
    }
  }

  /**
   * The churn touches only AVAILABLE and MAINTENANCE seats, moves at most
   * one seat from AVAILABLE to MAINTENANCE and at most one back, and so
   * never changes the number of OCCUPIED seats.
   */
  lemma ChurnMoves(s: seq<Seat>, down: bool, downPick: nat, up: bool, upPick: nat)
    ensures var r := Churn(s, down, downPick, up, upPick);
      forall i :: 0 <= i < |s| ==>
        r[i] == s[i]
        || ((s[i].status == Available || s[i].status == Maintenance)
            && (r[i].status == Available || r[i].status == Maintenance)
            && r[i] == s[i].(status := r[i].status))
    ensures AtMostOneMoves(s, Churn(s, down, downPick, up, upPick), Available, Maintenance)
    ensures AtMostOneMoves(s, Churn(s, down, downPick, up, upPick), Maintenance, Available)
    ensures Count(Churn(s, down, downPick, up, upPick), Occupied) == Count(s, Occupied)
  {
    ChurnOnlySwaps(s, down, downPick, up, upPick);
    ChurnAtMostOneEachWay(s, down, downPick, up, upPick);
    var s1 := ChurnStep(s, Available, Maintenance, down, downPick);
    ChurnStepMoves(s, Available, Maintenance, down, downPick);
    ChurnStepMoves(s1, Maintenance, Available, up, upPick);
  }

  lemma ChurnOnlySwaps(s: seq<Seat>, down: bool, downPick: nat, up: bool, upPick: nat)
    ensures var r := Churn(s, down, downPick, up, upPick);
      forall i :: 0 <= i < |s| ==>
        r[i] == s[i]
        || ((s[i].status == Available || s[i].status == Maintenance)
            && (r[i].status == Available || r[i].status == Maintenance)
            && r[i] == s[i].(status := r[i].status))
  {
    var s1 := ChurnStep(s, Available, Maintenance, down, downPick);
    ChurnStepMoves(s, Available, Maintenance, down, downPick);
    ChurnStepMoves(s1, Maintenance, Available, up, upPick);
    assert OnlyMoves(s, s1, Available, Maintenance);
    assert OnlyMoves(s1, Churn(s, down, downPick, up, upPick), Maintenance, Available);
  }

  lemma ChurnAtMostOneEachWay(s: seq<Seat>, down: bool, downPick: nat, up: bool, upPick: nat)
    ensures AtMostOneMoves(s, Churn(s, down, downPick, up, upPick), Available, Maintenance)
    ensures AtMostOneMoves(s, Churn(s, down, downPick, up, upPick), Maintenance, Available)
  {
    var s1 := ChurnStep(s, Available, Maintenance, down, downPick);
    var r := ChurnStep(s1, Maintenance, Available, up, upPick);
    ChurnStepMoves(s, Available, Maintenance, down, downPick);
    ChurnStepMoves(s1, Maintenance, Available, up, upPick);
    assert forall i :: Moved(s, r, i, Available, Maintenance) ==> Moved(s, s1, i, Available, Maintenance);
    assert forall i :: Moved(s, r, i, Maintenance, Available) ==> Moved(s1, r, i, Maintenance, Available);
  }

  /**
   * `_apply_drift` once `desired_occupied` and `max_changes` are known:
   * nothing on an empty table; otherwise the drift phase followed by the
   * churn.
   */
  function Drift(s: seq<Seat>, order: seq<nat>, desired: int, maxChanges: int,
                 down: bool, downPick: nat, up: bool, upPick: nat): (r: seq<Seat>)
    requires IndicesIn(order, |s|) && maxChanges >= 1
    ensures |r| == |s|
  {
    if |s| == 0 then s else Churn(DriftPhase(s, order, desired, maxChanges), down, downPick, up, upPick)
  }

  /** Only statuses changed. */
  ghost predicate StatusOnly(s: seq<Seat>, r: seq<Seat>)
    requires |r| == |s|
  {
    forall i :: 0 <= i < |s| ==> r[i] == s[i].(status := r[i].status)
  }

  /** No seat that was in `st` changed. */
  ghost predicate Keeps(s: seq<Seat>, r: seq<Seat>, st: SeatStatus)
    requires |r| == |s|
  {
    forall i :: 0 <= i < |s| && s[i].status == st ==> r[i] == s[i]
  }

  lemma DriftPhaseKeeps(s: seq<Seat>, order: seq<nat>, desired: int, maxChanges: int)
    requires IndicesIn(order, |s|) && maxChanges >= 1
    ensures var m := DriftPhase(s, order, desired, maxChanges);
      StatusOnly(s, m) && Keeps(s, m, Reserved) && Keeps(s, m, Blocked)
  {
    DriftPhaseMoves(s, order, desired, maxChanges);
  }

  lemma ChurnKeeps(s: seq<Seat>, down: bool, downPick: nat, up: bool, upPick: nat)
    ensures var r := Churn(s, down, downPick, up, upPick);
      StatusOnly(s, r) && Keeps(s, r, Reserved) && Keeps(s, r, Blocked)
  {
    ChurnMoves(s, down, downPick, up, upPick);
  }

  lemma KeepsTransitive(s: seq<Seat>, m: seq<Seat>, r: seq<Seat>)
    requires |m| == |s| && |r| == |s|
    requires StatusOnly(s, m) && Keeps(s, m, Reserved) && Keeps(s, m, Blocked)
    requires StatusOnly(m, r) && Keeps(m, r, Reserved) && Keeps(m, r, Blocked)
    ensures StatusOnly(s, r) && Keeps(s, r, Reserved) && Keeps(s, r, Blocked)
  {
    forall i | 0 <= i < |s|
      ensures r[i] == s[i].(status := r[i].status)
    {
      assert m[i] == s[i].(status := m[i].status);
    }
  }

  /**
   * Across the whole of `_apply_drift`, only statuses change, RESERVED and
   * BLOCKED seats are never touched, and the occupied count is the one the
   * drift phase left.
   */
  lemma DriftKeepsOthers(s: seq<Seat>, order: seq<nat>, desired: int, maxChanges: int,
                         down: bool, downPick: nat, up: bool, upPick: nat)
    requires IndicesIn(order, |s|) && maxChanges >= 1
    ensures var r := Drift(s, order, desired, maxChanges, down, downPick, up, upPick);
      StatusOnly(s, r) && Keeps(s, r, Reserved) && Keeps(s, r, Blocked)
    ensures Count(Drift(s, order, desired, maxChanges, down, downPick, up, upPick), Occupied)
      == Count(DriftPhase(s, order, desired, maxChanges), Occupied)
  {
    if |s| > 0 {
      var m := DriftPhase(s, order, desired, maxChanges);
      var r := Churn(m, down, downPick, up, upPick);
      assert r == Drift(s, order, desired, maxChanges, down, downPick, up, upPick);
      DriftPhaseKeeps(s, order, desired, maxChanges);
      ChurnKeeps(m, down, downPick, up, upPick);
      KeepsTransitive(s, m, r);
      ChurnMoves(m, down, downPick, up, upPick);
    }
  }

  /** The sampled flips, one seat of the ordering at a time. */
  method FlipSample(a: array<Seat>, order: seq<nat>, from: SeatStatus, to: SeatStatus, count: nat)
    requires IndicesIn(order, a.Length)
    modifies a
    ensures a[..] == FlipInOrder(old(a[..]), order, from, to, count)
  {
    var j, left := 0, count;
    while j < |order| && left > 0
      invariant 0 <= j <= |order|
      invariant FlipInOrder(a[..], order[j..], from, to, left) == FlipInOrder(old(a[..]), order, from, to, count)
    {
      var i := order[j];
      assert order[j..][0] == i && order[j..][1..] == order[j + 1..];
      if a[i].status == from {
        a[i] := a[i].(status := to);
        left := left - 1;
      }
      j := j + 1;
    }
  }

  /** One draw of the maintenance churn on the seat rows in place. */
  method ChurnStepInPlace(a: array<Seat>, from: SeatStatus, to: SeatStatus, fire: bool, pick: nat)
    modifies a
    ensures a[..] == ChurnStep(old(a[..]), from, to, fire, pick)
  {
    var pool := IndicesWith(a[..], from);
    if |pool| > 0 && fire {
      var i := pool[pick % |pool|];
      a[i] := a[i].(status := to);
    }
  }

  /** `_apply_drift`, updating the seat rows in place. */
  method ApplyDrift(a: array<Seat>, order: seq<nat>, target: real, ratio: real,
                    down: bool, downPick: nat, up: bool, upPick: nat)
    requires IndicesIn(order, a.Length)
    modifies a
    ensures a[..] == Drift(old(a[..]), order, Desired(a.Length, target), MaxChanges(a.Length, ratio),
                           down, downPick, up, upPick)
  {
    if a.Length == 0 {
      return;
    }
    var p := PlanOf(a[..], Desired(a.Length, target), MaxChanges(a.Length, ratio));
    FlipSample(a, order, p.from, p.to, p.count);
    ChurnStepInPlace(a, Available, Maintenance, down, downPick);
    ChurnStepInPlace(a, Maintenance, Available, up, upPick);
  }

  // ------------------------------------------------------------------
  // The snapshot
  // ------------------------------------------------------------------

  /** The names `_build_snapshot` reads through `seat.floor` and `seat.floor.location`. */
  datatype Place = Place(floorName: Option<string>, locationName: string)

  function LocationName(f: Floor, locations: seq<Location>): string {
    match LocationById(locations, f.locationId)
    case None => ""
    case Some(l) => locations[l].name
  }

  /** No floor gives the name "" and no location; a floor's name may be null. */
  function PlaceOf(seat: Seat, floors: seq<Floor>, locations: seq<Location>): Place {
    match FloorById(floors, seat.floorId)
    case None => Place(Some(""), "")
    case Some(f) => Place(floors[f].floorName, LocationName(floors[f], locations))
  }

  /** Python truthiness of an optional string. */
  predicate Truthy(o: Option<string>) {
    o.Some? && o.value != ""
  }

  /** `filter(None, [location_name, floor_name])`. */
  function Named(locationName: string, floorName: Option<string>): (r: seq<string>)
    ensures forall k :: 0 <= k < |r| ==> r[k] != ""
  {
    (if locationName != "" then [locationName] else []) + (if Truthy(floorName) then [floorName.value] else [])
  }

  /**
   * `" / ".join(filter(None, [location_name, floor_name])) or floor_name or
   * seat.floor_id`. When the join is empty the floor name is empty too, so
   * the path then falls through to the floor id.
   */
  function PathOf(locationName: string, floorName: Option<string>, floorId: string): (p: string)
    ensures Named(locationName, floorName) != [] ==> p == Join(Named(locationName, floorName), " / ") && p != ""
    ensures Named(locationName, floorName) == [] ==> p == floorId
  {
    var joined := Join(Named(locationName, floorName), " / ");
    if joined != "" then joined else if Truthy(floorName) then TextOr(floorName, floorId) else floorId
  }

  /** The text an optional string holds, or `fallback` when it is absent. */
  function TextOr(o: Option<string>, fallback: string): string {
    if o.Some? then o.value else fallback
  }

  function MinOf(xs: seq<real>): (m: real)
    requires |xs| > 0
    ensures forall i :: 0 <= i < |xs| ==> m <= xs[i]
    ensures m in xs
  {
    if |xs| == 1 then xs[0]
    else
      var rest := MinOf(xs[1..]);
      assert forall i :: 1 <= i < |xs| ==> xs[i] == xs[1..][i - 1];
      if xs[0] <= rest then xs[0] else rest
  }

  function MaxOf(xs: seq<real>): (m: real)
    requires |xs| > 0
    ensures forall i :: 0 <= i < |xs| ==> xs[i] <= m
    ensures m in xs
  {
    if |xs| == 1 then xs[0]
    else
      var rest := MaxOf(xs[1..]);
      assert forall i :: 1 <= i < |xs| ==> xs[i] == xs[1..][i - 1];
      if xs[0] >= rest then xs[0] else rest
  }

  /** `x_max - x_min or 1`. */
  function Span(lo: real, hi: real): (d: real)
    requires lo <= hi
    ensures d > 0.0
  {
    if hi - lo != 0.0 then hi - lo else 1.0
  }

  /** `round(5 + ((v - lo) / span) * 90, 2)`. */
  function Normalise(v: real, lo: real, hi: real): (r: real)
    requires lo <= hi
    ensures v == lo ==> r == 5.0
    ensures lo < v == hi ==> r == 95.0
  {
    RoundToInt(5, 2);
    RoundToInt(95, 2);
    assert lo < v == hi ==> (v - lo) / Span(lo, hi) == 1.0;
    RoundTo(5.0 + (v - lo) / Span(lo, hi) * 90.0, 2)
  }

  /** Every normalised coordinate lies in [5, 95]. */
  lemma NormaliseInRange(v: real, lo: real, hi: real)
    requires lo <= v <= hi
    ensures 5.0 <= Normalise(v, lo, hi) <= 95.0
  {
    var d := Span(lo, hi);
    var q := (v - lo) / d;
    assert q * d == v - lo;
    assert 0.0 <= q <= 1.0;
    var x := 5.0 + q * 90.0;
    assert 500.0 <= x * 100.0 <= 9500.0;
    RoundHalfUpBetween(x * 100.0, 500, 9500);
  }

  /** When every coordinate is the same, every seat maps to 5. */
  lemma NormaliseFlat(v: real)
    ensures Normalise(v, v, v) == 5.0
  {
    RoundHalfUpInt(500);
  }

  /** The coordinate ranges of the table: `min(xs), max(xs), min(ys), max(ys)`. */
  datatype Bounds = Bounds(xMin: real, xMax: real, yMin: real, yMax: real)

  /** `[s.x for s in seats]` and `[s.y for s in seats]`. */
  function Xs(seats: seq<Seat>): (r: seq<real>)
    ensures |r| == |seats| && forall i :: 0 <= i < |seats| ==> r[i] == seats[i].x
  {
    seq(|seats|, i requires 0 <= i < |seats| => seats[i].x)
  }

  function Ys(seats: seq<Seat>): (r: seq<real>)
    ensures |r| == |seats| && forall i :: 0 <= i < |seats| ==> r[i] == seats[i].y
  {
    seq(|seats|, i requires 0 <= i < |seats| => seats[i].y)
  }

  /** Each bound holds every seat and is the coordinate of some seat. */
  function BoundsOf(seats: seq<Seat>): (b: Bounds)
    requires |seats| > 0
    ensures forall i :: 0 <= i < |seats| ==> b.xMin <= seats[i].x <= b.xMax && b.yMin <= seats[i].y <= b.yMax
    ensures exists i :: 0 <= i < |seats| && seats[i].x == b.xMin
    ensures exists i :: 0 <= i < |seats| && seats[i].x == b.xMax
    ensures exists i :: 0 <= i < |seats| && seats[i].y == b.yMin
    ensures exists i :: 0 <= i < |seats| && seats[i].y == b.yMax
  {
    var xs, ys := Xs(seats), Ys(seats);
    var b := Bounds(MinOf(xs), MaxOf(xs), MinOf(ys), MaxOf(ys));
    assert forall i :: 0 <= i < |seats| ==> xs[i] == seats[i].x && ys[i] == seats[i].y;
    b
  }

  /** One entry of the seat payload. */
  datatype SnapshotSeat = SnapshotSeat(
    id: string, seatNumber: string, status: string, floorId: string,
    floorName: Option<string>, locationName: string, path: string,
    x: real, y: real, hasPowerOutlet: bool, hasWifi: bool, hasAc: bool, accessibility: bool)

  /** The header `setdefault` stores for a floor. */
  datatype FloorHeader = FloorHeader(floorId: string, floorName: string, locationName: string, path: string)

  /** One seat inside a floor group. */
  datatype GroupSeat = GroupSeat(
    seatId: string, seatNumber: string, status: string,
    hasPowerOutlet: bool, hasWifi: bool, hasAc: bool, accessibility: bool)

  type FloorGroup = Group<FloorHeader, GroupSeat>

  /** What one refresh publishes: the seat payload, the encoded map and the floor groups. */
  datatype Snapshot = Snapshot(seats: seq<SnapshotSeat>, encoded: string, floors: seq<FloorGroup>)

  function SeatPath(seat: Seat, floors: seq<Floor>, locations: seq<Location>): string {
    var p := PlaceOf(seat, floors, locations);
    PathOf(p.locationName, p.floorName, seat.floorId)
  }

  function SeatEntry(seat: Seat, floors: seq<Floor>, locations: seq<Location>, b: Bounds): SnapshotSeat
    requires b.xMin <= b.xMax && b.yMin <= b.yMax
  {
    var p := PlaceOf(seat, floors, locations);
    SnapshotSeat(seat.id, seat.seatNumber, StatusValue(seat.status), seat.floorId,
      p.floorName, p.locationName, SeatPath(seat, floors, locations),
      Normalise(seat.x, b.xMin, b.xMax), Normalise(seat.y, b.yMin, b.yMax),
      seat.hasPowerOutlet, seat.hasWifi, seat.hasAc, seat.accessibility)
  }

  /** `int(flag)` printed. */
  function Bit(b: bool): string {
    if b then "1" else "0"
  }

  /** The encoded line of one seat. */
  function Line(seat: Seat, path: string): string {
    seat.seatNumber + "|path=" + path + Flags(seat)
  }

  /** The part of a line after the path: the status and the four amenity bits. */
  function Flags(seat: Seat): string {
    "|status=" + StatusValue(seat.status)
      + "|power=" + Bit(seat.hasPowerOutlet) + "|wifi=" + Bit(seat.hasWifi)
      + "|ac=" + Bit(seat.hasAc) + "|accessible=" + Bit(seat.accessibility)
  }

  /** The encoded lines of the seats, in table order; `line` encodes one seat. */
  function Lines(seats: seq<Seat>, line: Seat -> string): (r: seq<string>)
    ensures |r| == |seats|
  {
    if seats == [] then [] else Lines(seats[..|seats| - 1], line) + [line(seats[|seats| - 1])]
  }

  /** Line `k` of the map is the line of seat `k`. */
  lemma {:induction false} LinesAt(seats: seq<Seat>, line: Seat -> string, k: nat)
    requires k < |seats|
    ensures Lines(seats, line)[k] == line(seats[k])
    decreases |seats|
  {
    var n := |seats| - 1;
    if k < n {
      LinesAt(seats[..n], line, k);
      assert seats[..n][k] == seats[k];
    }
  }

  /** The line of a seat at its path. */
  function LineAtPath(floors: seq<Floor>, locations: seq<Location>): Seat -> string {
    (seat: Seat) => Line(seat, SeatPath(seat, floors, locations))
  }

  function FloorKey(seat: Seat): string {
    seat.floorId
  }

  function HeaderOf(seat: Seat, floors: seq<Floor>, locations: seq<Location>): FloorHeader {
    var p := PlaceOf(seat, floors, locations);
    FloorHeader(seat.floorId, if Truthy(p.floorName) then p.floorName.value else seat.floorId,
      p.locationName, SeatPath(seat, floors, locations))
  }

  function Headers(floors: seq<Floor>, locations: seq<Location>): Seat -> FloorHeader {
    (seat: Seat) => HeaderOf(seat, floors, locations)
  }

  function GroupSeatOf(seat: Seat): GroupSeat {
    GroupSeat(seat.id, seat.seatNumber, StatusValue(seat.status),
      seat.hasPowerOutlet, seat.hasWifi, seat.hasAc, seat.accessibility)
  }

  predicate BySeatNumber(a: GroupSeat, b: GroupSeat) {
    StrLe(a.seatNumber, b.seatNumber)
  }

  predicate ByPath(g: FloorGroup, h: FloorGroup) {
    StrLe(g.header.path, h.header.path)
  }

  /** The groups before sorting: the dict filled by the loop. */
  function FloorGroups(seats: seq<Seat>, floors: seq<Floor>, locations: seq<Location>): (r: seq<FloorGroup>)
    ensures |r| <= |seats|
  {
    GroupBy(seats, FloorKey, Headers(floors, locations), GroupSeatOf)
  }

  /** The seat payload: one entry per seat, in table order. */
  function Entries(seats: seq<Seat>, floors: seq<Floor>, locations: seq<Location>, b: Bounds): (r: seq<SnapshotSeat>)
    requires b.xMin <= b.xMax && b.yMin <= b.yMax
    ensures |r| == |seats|
  {
    seq(|seats|, i requires 0 <= i < |seats| => SeatEntry(seats[i], floors, locations, b))
  }

  /** `_build_snapshot` for a non-empty table (`min` of an empty list raises). */
  function SnapshotOf(seats: seq<Seat>, floors: seq<Floor>, locations: seq<Location>): (s: Snapshot)
    requires |seats| > 0
    ensures |s.seats| == |seats|
    ensures |s.floors| <= |seats|
  {
    var b := BoundsOf(seats);
    Snapshot(
      Entries(seats, floors, locations, b),
      Join(Lines(seats, LineAtPath(floors, locations)), "\n"),
      SortBy(SortItems(FloorGroups(seats, floors, locations), BySeatNumber), ByPath))
  }

  /** Taking one more seat adds its entry to the payload. */
  lemma EntriesStep(seats: seq<Seat>, floors: seq<Floor>, locations: seq<Location>, b: Bounds, i: nat)
    requires i < |seats| && b.xMin <= b.xMax && b.yMin <= b.yMax
    ensures Entries(seats[..i + 1], floors, locations, b)
      == Entries(seats[..i], floors, locations, b) + [SeatEntry(seats[i], floors, locations, b)]
  {
    var e, e' := Entries(seats[..i], floors, locations, b), Entries(seats[..i + 1], floors, locations, b);
    var rhs := e + [SeatEntry(seats[i], floors, locations, b)];
    forall k | 0 <= k < |e'| ensures e'[k] == rhs[k] {
      assert seats[..i + 1][k] == seats[k];
      if k < i {
        assert seats[..i][k] == seats[k];
      }
    }
    assert e' == rhs;
  }

  /** Taking one more seat adds its line. */
  lemma LinesStep(seats: seq<Seat>, line: Seat -> string, i: nat)
    requires i < |seats|
    ensures Lines(seats[..i + 1], line) == Lines(seats[..i], line) + [line(seats[i])]
  {
    assert seats[..i + 1][..i] == seats[..i];
  }

  /** Taking one more seat files it under its floor. */
  lemma GroupsStep(seats: seq<Seat>, floors: seq<Floor>, locations: seq<Location>, i: nat)
    requires i < |seats|
    ensures FloorGroups(seats[..i + 1], floors, locations)
      == AddItem(FloorGroups(seats[..i], floors, locations), seats[i].floorId,
                 HeaderOf(seats[i], floors, locations), GroupSeatOf(seats[i]))
  {
    assert seats[..i + 1][..i] == seats[..i];
  }

  /** The loop of `_build_snapshot`: the payload, the lines and the unsorted groups. */
  method Collect(seats: seq<Seat>, floors: seq<Floor>, locations: seq<Location>, b: Bounds)
      returns (payload: seq<SnapshotSeat>, lines: seq<string>, groups: seq<FloorGroup>)
    requires b.xMin <= b.xMax && b.yMin <= b.yMax
    ensures payload == Entries(seats, floors, locations, b)
    ensures lines == Lines(seats, LineAtPath(floors, locations))
    ensures groups == FloorGroups(seats, floors, locations)
  {
    payload, lines, groups := [], [], [];
    var i := 0;
    while i < |seats|
      invariant 0 <= i <= |seats|
      invariant payload == Entries(seats[..i], floors, locations, b)
      invariant lines == Lines(seats[..i], LineAtPath(floors, locations))
      invariant groups == FloorGroups(seats[..i], floors, locations)
    {
      var seat := seats[i];
      var path := SeatPath(seat, floors, locations);
      EntriesStep(seats, floors, locations, b, i);
      LinesStep(seats, LineAtPath(floors, locations), i);
      GroupsStep(seats, floors, locations, i);
      payload := payload + [SeatEntry(seat, floors, locations, b)];
      lines := lines + [Line(seat, path)];
      groups := AddItem(groups, seat.floorId, HeaderOf(seat, floors, locations), GroupSeatOf(seat));
      i := i + 1;
    }
    assert seats[..i] == seats;
  }

  /** `_build_snapshot`: the loop, then the in-place sorts. */
  method BuildSnapshot(seats: seq<Seat>, floors: seq<Floor>, locations: seq<Location>) returns (snap: Snapshot)
    requires |seats| > 0
    ensures snap == SnapshotOf(seats, floors, locations)
  {
    var b := BoundsOf(seats);
    var payload, lines, groups := Collect(seats, floors, locations, b);
    groups := SortEachGroup(groups, BySeatNumber);
    var floorPayload := SortBy(groups, ByPath);
    snap := Snapshot(payload, Join(lines, "\n"), floorPayload);
  }

  /**
   * One payload entry per seat, in table order, naming that seat, with
   * both coordinates normalised into [5, 95].
   */
  lemma SnapshotEntries(seats: seq<Seat>, floors: seq<Floor>, locations: seq<Location>)
    requires |seats| > 0
    ensures |SnapshotOf(seats, floors, locations).seats| == |seats|
    ensures forall i :: 0 <= i < |seats| ==>
      var e := SnapshotOf(seats, floors, locations).seats[i];
      e.id == seats[i].id && e.seatNumber == seats[i].seatNumber && e.floorId == seats[i].floorId
      && 5.0 <= e.x <= 95.0 && 5.0 <= e.y <= 95.0
  {
    var b := BoundsOf(seats);
    forall i | 0 <= i < |seats|
      ensures 5.0 <= Normalise(seats[i].x, b.xMin, b.xMax) <= 95.0
      ensures 5.0 <= Normalise(seats[i].y, b.yMin, b.yMax) <= 95.0
    {
      NormaliseInRange(seats[i].x, b.xMin, b.xMax);
      NormaliseInRange(seats[i].y, b.yMin, b.yMax);
    }
  }

  /** When all seats share one x coordinate, every entry's x is 5. */
  lemma SnapshotFlatX(seats: seq<Seat>, floors: seq<Floor>, locations: seq<Location>)
    requires |seats| > 0
    requires forall i :: 0 <= i < |seats| ==> seats[i].x == seats[0].x
    ensures forall i :: 0 <= i < |seats| ==> SnapshotOf(seats, floors, locations).seats[i].x == 5.0
  {
    var b := BoundsOf(seats);
    assert b.xMin == seats[0].x && b.xMax == seats[0].x;
    NormaliseFlat(seats[0].x);
  }

  /**
   * The encoded map splits back on "\n" into one line per seat, in table
   * order, each starting with the seat number and its path, provided no
   * seat number or path contains a newline.
   */
  lemma EncodedLines(seats: seq<Seat>, floors: seq<Floor>, locations: seq<Location>)
    requires |seats| > 0
    requires forall i :: 0 <= i < |seats| ==>
      '\n' !in seats[i].seatNumber && '\n' !in SeatPath(seats[i], floors, locations)
    ensures Split(SnapshotOf(seats, floors, locations).encoded, '\n') == Lines(seats, LineAtPath(floors, locations))
    ensures forall i :: 0 <= i < |seats| ==>
      StartsWith(Lines(seats, LineAtPath(floors, locations))[i], seats[i].seatNumber + "|path=" + SeatPath(seats[i], floors, locations))
  {
    var lines := Lines(seats, LineAtPath(floors, locations));
    forall i | 0 <= i < |seats|
      ensures '\n' !in lines[i]
      ensures StartsWith(lines[i], seats[i].seatNumber + "|path=" + SeatPath(seats[i], floors, locations))
    {
      LinesAt(seats, LineAtPath(floors, locations), i);
      LineShape(seats[i], SeatPath(seats[i], floors, locations));
    }
    assert "\n" == ['\n'];
    SplitJoin(lines, '\n');
  }

  /** A line holds no newline of its own and starts with the seat number and the path. */
  lemma LineShape(seat: Seat, path: string)
    requires '\n' !in seat.seatNumber && '\n' !in path
    ensures '\n' !in Line(seat, path)
    ensures StartsWith(Line(seat, path), seat.seatNumber + "|path=" + path)
  {
    FlagsShape(seat);
    var pre := seat.seatNumber + "|path=" + path;
    assert '\n' !in "|path=";
    assert pre <= pre + Flags(seat);
  }

  lemma FlagsShape(seat: Seat)
    ensures '\n' !in Flags(seat)
  {
    var status := StatusValue(seat.status);
    assert '\n' !in status by {
      match seat.status
      case Available =>
      case Occupied =>
      case Reserved =>
      case Maintenance =>
      case Blocked =>
    }
    assert '\n' !in "|status=" && '\n' !in "|power=" && '\n' !in "|wifi=";
    assert '\n' !in "|ac=" && '\n' !in "|accessible=";
    assert forall b :: '\n' !in Bit(b);
  }

  lemma BySeatNumberTotal()
    ensures TotalPreorder(BySeatNumber)
  {
    StrLeTotalPreorder();
    forall a, b ensures BySeatNumber(a, b) || BySeatNumber(b, a) {
      StrLeTotal(a.seatNumber, b.seatNumber);
    }
    forall a, b, c | BySeatNumber(a, b) && BySeatNumber(b, c) ensures BySeatNumber(a, c) {
      StrLeTransitive(a.seatNumber, b.seatNumber, c.seatNumber);
    }
  }

  lemma ByPathTotal()
    ensures TotalPreorder(ByPath)
  {
    forall a, b ensures ByPath(a, b) || ByPath(b, a) {
      StrLeTotal(a.header.path, b.header.path);
    }
    forall a, b, c | ByPath(a, b) && ByPath(b, c) ensures ByPath(a, c) {
      StrLeTransitive(a.header.path, b.header.path, c.header.path);
    }
  }

  /** The header a seat's floor gets depends only on the floor id. */
  lemma HeaderByFloor(seats: seq<Seat>, floors: seq<Floor>, locations: seq<Location>, i: nat, j: nat)
    requires i < |seats| && j < |seats| && seats[i].floorId == seats[j].floorId
    ensures HeaderOf(seats[i], floors, locations) == HeaderOf(seats[j], floors, locations)
  {
  }

  /** The floor groups are sorted by path and their keys are distinct floor ids. */
  lemma FloorsOrdered(seats: seq<Seat>, floors: seq<Floor>, locations: seq<Location>)
    requires |seats| > 0
    ensures var fs := SnapshotOf(seats, floors, locations).floors;
      SortedBy(fs, ByPath) && DistinctKeys(fs)
  {
    var raw := FloorGroups(seats, floors, locations);
    var sorted := SortItems(raw, BySeatNumber);
    ByPathTotal();
    SortBySorted(sorted, ByPath);
    GroupByDistinct(seats, FloorKey, Headers(floors, locations), GroupSeatOf);
    assert DistinctKeys(sorted);
    SortByKeepsKeys(sorted, ByPath);
  }

  /** Every seat's floor has a group. */
  lemma FloorsCover(seats: seq<Seat>, floors: seq<Floor>, locations: seq<Location>)
    requires |seats| > 0
    ensures var fs := SnapshotOf(seats, floors, locations).floors;
      forall i :: 0 <= i < |seats| ==> KeyIndex(fs, seats[i].floorId).Some?
  {
    var raw := FloorGroups(seats, floors, locations);
    var sorted := SortItems(raw, BySeatNumber);
    var fs := SortBy(sorted, ByPath);
    GroupByCovers(seats, FloorKey, Headers(floors, locations), GroupSeatOf);
    forall i | 0 <= i < |seats| ensures KeyIndex(fs, seats[i].floorId).Some? {
      var g := KeyIndex(raw, seats[i].floorId).value;
      var h := Found(fs, sorted, g);
      assert fs[h].key == seats[i].floorId;
    }
  }

  /**
   * Group `g` holds exactly the seats of its floor (as a reordering),
   * sorted by seat number, under the header of that floor.
   */
  lemma FloorContent(seats: seq<Seat>, floors: seq<Floor>, locations: seq<Location>, g: nat)
    requires |seats| > 0 && g < |SnapshotOf(seats, floors, locations).floors|
    ensures var f := SnapshotOf(seats, floors, locations).floors[g];
      multiset(f.items) == multiset(ItemsWithKey(seats, FloorKey, f.key, GroupSeatOf))
      && SortedBy(f.items, BySeatNumber)
      && forall i :: 0 <= i < |seats| && seats[i].floorId == f.key ==> f.header == HeaderOf(seats[i], floors, locations)
  {
    var raw := FloorGroups(seats, floors, locations);
    var sorted := SortItems(raw, BySeatNumber);
    var fs := SortBy(sorted, ByPath);
    var k := Found(sorted, fs, g);
    BySeatNumberTotal();
    SortItemsSorted(raw, BySeatNumber);
    GroupByItems(seats, FloorKey, Headers(floors, locations), GroupSeatOf);
    GroupByHeaders(seats, FloorKey, Headers(floors, locations), GroupSeatOf);
    var i0 :| 0 <= i0 < |seats| && FloorKey(seats[i0]) == raw[k].key
      && Headers(floors, locations)(seats[i0]) == raw[k].header;
    forall i | 0 <= i < |seats| && seats[i].floorId == fs[g].key
      ensures fs[g].header == HeaderOf(seats[i], floors, locations)
    {
      HeaderByFloor(seats, floors, locations, i, i0);
    }
  }

  // ------------------------------------------------------------------
  // The worker
  // ------------------------------------------------------------------

  /** `get_seat_payload()`: the cached floors and seats and when they were built. */
  datatype SeatPayload = SeatPayload(floors: seq<FloorGroup>, seats: seq<SnapshotSeat>, lastUpdated: Option<int>)

  /** The worker's settings and the snapshot it caches. */
  class Worker {
    var interval: int
    var driftRatio: real
    var targetOccupancy: real
    var encodedMap: string
    var seatPayload: seq<SnapshotSeat>
    var floorPayload: seq<FloorGroup>
    var lastUpdated: Option<int>

    /** A worker caches nothing until its first refresh. */
    constructor(interval: int, driftRatio: real, targetOccupancy: real)
      ensures this.interval == interval && this.driftRatio == driftRatio
      ensures this.targetOccupancy == targetOccupancy
      ensures encodedMap == "" && seatPayload == [] && floorPayload == [] && lastUpdated == None
    {
      this.interval := interval;
      this.driftRatio := driftRatio;
      this.targetOccupancy := targetOccupancy;
      encodedMap := "";
      seatPayload := [];
      floorPayload := [];
      lastUpdated := None;
    }

    /**
     * `_refresh_snapshot`: with no seats nothing happens; otherwise the
     * drift is applied to the table and the snapshot of the new table is
     * cached, stamped with `now`.
     */
    method Refresh(seats: array<Seat>, floors: seq<Floor>, locations: seq<Location>, now: int,
                   order: seq<nat>, down: bool, downPick: nat, up: bool, upPick: nat)
      requires IndicesIn(order, seats.Length)
      modifies this, seats
      ensures seats.Length == 0 ==> unchanged(this) && unchanged(seats)
      ensures seats.Length > 0 ==>
        seats[..] == Drift(old(seats[..]), order, Desired(seats.Length, targetOccupancy),
                           MaxChanges(seats.Length, driftRatio), down, downPick, up, upPick)
      ensures seats.Length > 0 ==>
        Snapshot(seatPayload, encodedMap, floorPayload) == SnapshotOf(seats[..], floors, locations)
      ensures seats.Length > 0 ==> lastUpdated == Some(now)
      ensures interval == old(interval) && driftRatio == old(driftRatio)
      ensures targetOccupancy == old(targetOccupancy)
    {
      if seats.Length == 0 {
        return;
      }
      ApplyDrift(seats, order, targetOccupancy, driftRatio, down, downPick, up, upPick);
      Rebuild(seats[..], floors, locations, now);
    }

    /** Builds the snapshot of the (non-empty) table and caches it, stamped with `now`. */
    method Rebuild(seats: seq<Seat>, floors: seq<Floor>, locations: seq<Location>, now: int)
      requires |seats| > 0
      modifies this
      ensures Snapshot(seatPayload, encodedMap, floorPayload) == SnapshotOf(seats, floors, locations)
      ensures lastUpdated == Some(now)
      ensures interval == old(interval) && driftRatio == old(driftRatio)
      ensures targetOccupancy == old(targetOccupancy)
    {
      var snap := BuildSnapshot(seats, floors, locations);
      Publish(snap, now);
    }

    /** Caches a snapshot, stamped with `now`. */
    method Publish(snap: Snapshot, now: int)
      modifies this
      ensures Snapshot(seatPayload, encodedMap, floorPayload) == snap && lastUpdated == Some(now)
      ensures interval == old(interval) && driftRatio == old(driftRatio)
      ensures targetOccupancy == old(targetOccupancy)
    {
      seatPayload, floorPayload, encodedMap := snap.seats, snap.floors, snap.encoded;
      lastUpdated := Some(now);
    }

    function Payload(): SeatPayload
      reads this
    {
      SeatPayload(floorPayload, seatPayload, lastUpdated)
    }
  }
}
