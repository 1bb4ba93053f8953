/**
 * Seat queries (backend/app/api/seats.py): the filtered, paged listing,
 * the available seats, and the lookup by id.
 */
module Seats {
  import opened Wrappers
  import opened Sorting
  import opened Store

  const SeatNotFound := ApiError(NotFound, "Seat not found")

  /**
   * The reply to a query naming `has_computer`: the seat table has no such
   * column, so building the condition raises and the request fails.
   */
  const NoComputerColumn := ApiError(500, "Internal Server Error")

  /** The query parameters of `get_seats`; an empty floor id is no filter. */
  datatype SeatQuery = SeatQuery(floorId: Option<string>, status: Option<SeatStatus>, seatType: Option<SeatType>)

  predicate FloorFilter(floorId: Option<string>, s: Seat) {
    floorId.None? || floorId.value == "" || s.floorId == floorId.value
  }

  /** Each filter that is set must hold, and the others do not apply. */
  function Matches(q: SeatQuery): Seat -> bool {
    (s: Seat) => FloorFilter(q.floorId, s)
      && (q.status.None? || s.status == q.status.value)
      && (q.seatType.None? || s.seatType == q.seatType.value)
  }

  /** `.offset(skip)`: everything after the first `skip` rows. */
  function Drop<T>(s: seq<T>, skip: nat): (r: seq<T>)
    ensures |r| == if skip < |s| then |s| - skip else 0
    ensures forall i :: 0 <= i < |r| ==> r[i] == s[skip + i]
  {
    if skip < |s| then s[skip..] else []
  }

  /** `.offset(skip).limit(limit)`. */
  function Page<T>(s: seq<T>, skip: nat, limit: nat): (r: seq<T>)
    ensures |r| == if skip >= |s| then 0 else Min(limit, |s| - skip)
    ensures forall i :: 0 <= i < |r| ==> r[i] == s[skip + i]
  {
    var d := Drop(s, skip);
    var r := Take(d, limit);
    assert forall i :: 0 <= i < |r| ==> r[i] == d[i];
    r
  }

  /** Two consecutive pages make up the page that spans both. */
  lemma PagesConcatenate<T>(s: seq<T>, skip: nat, n: nat, m: nat)
    ensures Page(s, skip, n) + Page(s, skip + n, m) == Page(s, skip, n + m)
  {
    var whole := Page(s, skip, n + m);
    var joined := Page(s, skip, n) + Page(s, skip + n, m);
    assert |joined| == |whole|;
    forall i | 0 <= i < |whole|
      ensures joined[i] == whole[i]
    {
      if i >= |Page(s, skip, n)| {
        assert joined[i] == Page(s, skip + n, m)[i - n];
      }
    }
  }

  /**
   * `get_seats` for `skip` >= 0 and `limit` in [1, 1000]: the seats that
   * pass every filter that is set, in table order, after the first `skip`
   * of them, and at most `limit`.
   */
  function GetSeats(seats: seq<Seat>, q: SeatQuery, skip: nat, limit: nat): (r: seq<Seat>)
    requires 1 <= limit <= 1000
    ensures |r| <= limit
    ensures forall i :: 0 <= i < |r| ==> r[i] in seats && Matches(q)(r[i])
    ensures |r| == if skip >= |Filter(seats, Matches(q))| then 0
                   else Min(limit, |Filter(seats, Matches(q))| - skip)
    ensures forall i :: 0 <= i < |r| ==> r[i] == Filter(seats, Matches(q))[skip + i]
  {
    var matching := Filter(seats, Matches(q));
    var r := Page(matching, skip, limit);
    forall i | 0 <= i < |r|
      ensures r[i] in seats && Matches(q)(r[i])
    {
      FilterMember(seats, Matches(q), r[i]);
    }
    r
  }

  function Min(a: int, b: int): int {
    if a < b then a else b
  }

  /** Without filters and from the start, a page is the first rows of the table. */
  lemma UnfilteredFirstPage(seats: seq<Seat>, limit: nat)
    requires 1 <= limit <= 1000
    ensures GetSeats(seats, SeatQuery(None, None, None), 0, limit) == Take(seats, limit)
  {
    FilterAll(seats, Matches(SeatQuery(None, None, None)));
  }

  lemma {:induction false} FilterAll<T>(s: seq<T>, p: T -> bool)
    requires forall i :: 0 <= i < |s| ==> p(s[i])
    ensures Filter(s, p) == s
  {
    if s != [] {
      FilterAll(s[1..], p);
    }
  }

  /** The conditions of `get_available_seats`. */
  function AvailableMatch(floorId: Option<string>, hasPower: Option<bool>): Seat -> bool {
    (s: Seat) => s.status == Available && FloorFilter(floorId, s)
      && (hasPower.None? || s.hasPowerOutlet == hasPower.value)
  }

  /**
   * `get_available_seats`: exactly the available seats of the floor (when
   * named) whose outlet matches `has_power` (when given), in table order.
   * Naming `has_computer` fails, the column not being part of the table.
   */
  function GetAvailableSeats(seats: seq<Seat>, floorId: Option<string>, hasPower: Option<bool>, hasComputer: Option<bool>)
    : (r: Result<seq<Seat>, ApiError>)
    ensures r.Err? <==> hasComputer.Some?
    ensures r.Err? ==> r.error == NoComputerColumn
    ensures r.Ok? ==> forall i :: 0 <= i < |r.value| ==> r.value[i] in seats && r.value[i].status == Available
    ensures r.Ok? ==> forall s :: s in seats ==> (s in r.value <==> AvailableMatch(floorId, hasPower)(s))
  {
    if hasComputer.Some? then Err(NoComputerColumn)
    else
      var found := Filter(seats, AvailableMatch(floorId, hasPower));
      forall s | s in found
        ensures s in seats && AvailableMatch(floorId, hasPower)(s)
      {
        FilterMember(seats, AvailableMatch(floorId, hasPower), s);
      }
      forall s | s in seats && AvailableMatch(floorId, hasPower)(s)
        ensures s in found
      {
        FilterKeeps(seats, AvailableMatch(floorId, hasPower), s);
      }
      Ok(found)
  }

  /** `get_seat`: the seat with that id, or 404. */
  function GetSeat(seats: seq<Seat>, seatId: string): (r: Result<Seat, ApiError>)
    ensures r.Ok? <==> exists k :: 0 <= k < |seats| && seats[k].id == seatId
    ensures r.Ok? ==> r.value in seats && r.value.id == seatId
    ensures r.Err? ==> r.error == SeatNotFound
  {
    match SeatById(seats, seatId)
    case None => Err(SeatNotFound)
    case Some(k) => Ok(seats[k])
  }
}
