/**
 * The lecturer's seat grid for one room
 * (frontend/src/screens/DashboardLecturers/components/LectureRoomMap.tsx):
 * how many rows the grid has, how many seats are shown taken, which seats
 * those are, and the summary line. The random numbers are parameters.
 */
module LectureRoomMap {
  import opened Wrappers
  import opened Strings

  const DefaultColumns: nat := 10

  /** `Math.ceil(capacity / columns)`. */
  function Rows(capacity: nat, columns: nat): (rows: nat)
    requires columns > 0
    ensures capacity <= rows * columns
    ensures rows == 0 || (rows - 1) * columns < capacity
  {
    var q := capacity / columns;
    if capacity % columns == 0 then q else q + 1
  }

  /** The index of the seat in row `row`, column `col`. */
  function SeatIndex(row: nat, col: nat, columns: nat): nat {
    row * columns + col
  }

  /** Every seat of the room has a cell in the grid, in its row and column. */
  lemma EverySeatHasACell(i: nat, capacity: nat, columns: nat)
    requires columns > 0 && i < capacity
    ensures i / columns < Rows(capacity, columns) && i % columns < columns
    ensures SeatIndex(i / columns, i % columns, columns) == i
  {
    if i / columns >= Rows(capacity, columns) {
      assert false;
    }
  }

  /** No two cells of the grid show the same seat. */
  lemma CellsAreDistinct(r1: nat, c1: nat, r2: nat, c2: nat, columns: nat)
    requires c1 < columns && c2 < columns
    requires SeatIndex(r1, c1, columns) == SeatIndex(r2, c2, columns)
    ensures r1 == r2 && c1 == c2
  {
    if r1 != r2 {
      var lo, hi, clo := if r1 < r2 then r1 else r2, if r1 < r2 then r2 else r1, if r1 < r2 then c1 else c2;
      RowsApart(lo, hi, columns);
      assert false;
    }
  }

  lemma {:induction false} RowsApart(lo: nat, hi: nat, columns: nat)
    requires lo < hi
    ensures lo * columns + columns <= hi * columns
    decreases hi - lo
  {
    assert hi * columns == (hi - 1) * columns + columns;
    if lo < hi - 1 {
      RowsApart(lo, hi - 1, columns);
    }
  }

  /**
   * `takenCount`: no one while no lecture is on (`liveOccupancy` null),
   * otherwise `Math.floor(liveOccupancy / 100 * capacity)`.
   */
  function TakenCount(liveOccupancy: Option<int>, capacity: nat): (n: int)
    ensures liveOccupancy.None? ==> n == 0
    ensures liveOccupancy.Some? ==> n * 100 <= liveOccupancy.value * capacity < (n + 1) * 100
  {
    if liveOccupancy.None? then 0 else (liveOccupancy.value * capacity) / 100
  }

  /**
   * The taken count is at most the capacity exactly when the occupancy
   * times the capacity stays below 100 times one more than the capacity;
   * in particular whenever the occupancy is at most 100 percent.
   */
  lemma TakenWithinCapacity(occupancy: int, capacity: nat)
    ensures TakenCount(Some(occupancy), capacity) <= capacity
        <==> occupancy * capacity < 100 * (capacity + 1)
    ensures 0 <= occupancy <= 100 ==> 0 <= TakenCount(Some(occupancy), capacity) <= capacity
  {
    if 0 <= occupancy <= 100 {
      assert occupancy * capacity <= 100 * capacity;
      assert 0 <= occupancy * capacity;
    }
  }

  /** The seat a random number in [0, 1) picks: `Math.floor(draw * capacity)`. */
  function Pick(draw: real, capacity: nat): (i: int)
    requires 0.0 <= draw < 1.0
    ensures capacity > 0 ==> 0 <= i < capacity
  {
    PickBounds(draw, capacity);
    (draw * capacity as real).Floor
  }

  lemma PickBounds(draw: real, capacity: nat)
    requires 0.0 <= draw < 1.0
    ensures 0.0 <= draw * capacity as real
    ensures capacity > 0 ==> draw * capacity as real < capacity as real
  {
    assert capacity as real - draw * capacity as real == (1.0 - draw) * capacity as real;
  }

  predicate ValidDraws(draws: seq<real>) {
    forall k :: 0 <= k < |draws| ==> 0.0 <= draws[k] < 1.0
  }

  /** The seats the first `n` draws pick. */
  function Picked(draws: seq<real>, n: nat, capacity: nat): (s: set<int>)
    requires ValidDraws(draws) && n <= |draws|
    ensures capacity > 0 ==> forall i :: i in s ==> 0 <= i < capacity
  {
    if n == 0 then {} else Picked(draws, n - 1, capacity) + {Pick(draws[n - 1], capacity)}
  }

  /** The indices of the seats marked taken. */
  function TakenSeats(status: seq<bool>): set<int> {
    set i | 0 <= i < |status| && status[i]
  }

  /** The seat indices 0 .. n-1. */
  function Range(n: nat): (s: set<int>)
    ensures |s| == n
    ensures forall i :: i in s <==> 0 <= i < n
  {
    if n == 0 then {} else
      var r := Range(n - 1);
      assert n - 1 !in r;
      r + {n - 1}
  }

  /**
   * However many random numbers are drawn, they pick at most `capacity`
   * seats: the loop can only end when `takenCount <= capacity`.
   */
  lemma PickedAtMostCapacity(draws: seq<real>, capacity: nat)
    requires ValidDraws(draws) && capacity > 0
    ensures |Picked(draws, |draws|, capacity)| <= capacity
  {
    var s := Picked(draws, |draws|, capacity);
    assert s <= Range(capacity);
    SubsetCardinality(s, Range(capacity));
  }

  lemma SubsetCardinality(a: set<int>, b: set<int>)
    requires a <= b
    ensures |a| <= |b|
  {
    assert b == a + (b - a);
  }

  /**
   * `seatStatus`: an array of `capacity` free seats; unless nobody is in
   * the room, random seats are added to a set until it holds `takenCount`
   * of them, and those seats are marked taken. `draws` are the successive
   * `Math.random()` results; the source loops until enough distinct seats
   * come up, which the precondition says they do.
   */
  method SeatStatus(capacity: nat, takenCount: int, draws: seq<real>) returns (status: seq<bool>)
    requires ValidDraws(draws) && capacity > 0
    requires takenCount <= |Picked(draws, |draws|, capacity)|
    ensures |status| == capacity
    ensures takenCount <= 0 ==> TakenSeats(status) == {}
    ensures takenCount > 0 ==> |TakenSeats(status)| == takenCount
    ensures TakenSeats(status) <= Picked(draws, |draws|, capacity)
  {
    if takenCount <= 0 {
      status := MarkSeats(capacity, {});
      return;
    }
    var taken := DrawSeats(capacity, takenCount, draws);
    status := MarkSeats(capacity, taken);
  }

  /** The `while` loop: adds drawn seats to a set until it holds `takenCount`. */
  method DrawSeats(capacity: nat, takenCount: nat, draws: seq<real>) returns (taken: set<int>)
    requires ValidDraws(draws) && capacity > 0
    requires takenCount <= |Picked(draws, |draws|, capacity)|
    ensures |taken| == takenCount
    ensures taken <= Picked(draws, |draws|, capacity)
  {
    taken := {};
    var k := 0;
    while |taken| < takenCount
      invariant 0 <= k <= |draws|
      invariant taken == Picked(draws, k, capacity)
      invariant |taken| <= takenCount
      decreases |draws| - k
    {
      if k == |draws| {
        assert false;
      }
      taken := taken + {Pick(draws[k], capacity)};
      k := k + 1;
    }
    PickedGrows(draws, k, |draws|, capacity);
  }

  /**
   * `Array(capacity).fill(false)`, then `seats[i] = true` for each taken `i`;
   * the set is visited in index order, which gives the same array.
   */
  method MarkSeats(capacity: nat, taken: set<int>) returns (status: seq<bool>)
    requires forall i :: i in taken ==> 0 <= i < capacity
    ensures |status| == capacity
    ensures TakenSeats(status) == taken
  {
    var seats := new bool[capacity](_ => false);
    for i := 0 to capacity
      invariant forall j :: 0 <= j < capacity ==> (seats[j] <==> j in taken && j < i)
    {
      if i in taken {
        seats[i] := true;
      }
    }
    status := seats[..];
    assert TakenSeats(status) == taken;
  }

  lemma {:induction false} PickedGrows(draws: seq<real>, m: nat, n: nat, capacity: nat)
    requires ValidDraws(draws) && m <= n <= |draws|
    ensures Picked(draws, m, capacity) <= Picked(draws, n, capacity)
    decreases n - m
  {
    if m < n {
      PickedGrows(draws, m, n - 1, capacity);
    }
  }

  /** The colour of a seat cell: red when taken, green when free. */
  function SeatColour(taken: bool): (c: string)
    ensures c == (if taken then "#ef4444" else "#4CAF50")
  {
    if taken then "#ef4444" else "#4CAF50"
  }

  /**
   * The summary above the teaching stand: the capacity, followed, when a
   * live count is known, by the number of seats drawn as taken out of it.
   */
  function Summary(capacity: nat, liveOccupancy: Option<int>): (text: string)
    ensures StartsWith(text, "Capacity: " + NatToString(capacity) + " seats")
    ensures liveOccupancy.None? <==> text == "Capacity: " + NatToString(capacity) + " seats"
    ensures liveOccupancy.Some? ==>
      text == "Capacity: " + NatToString(capacity) + " seats" + "\U{00A0}\U{00B7}\U{00A0}Occupied: "
        + IntToString(TakenCount(liveOccupancy, capacity)) + " / " + NatToString(capacity)
  {
    var head := "Capacity: " + NatToString(capacity) + " seats";
    if liveOccupancy.None? then head
    else
      var tail := "\U{00A0}\U{00B7}\U{00A0}Occupied: " + IntToString(TakenCount(liveOccupancy, capacity)) + " / " + NatToString(capacity);
      assert |head + tail| > |head|;
      head + tail
  }
}
