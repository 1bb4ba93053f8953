/**
 * The reservation endpoints (backend/app/api/reservations.py): booking a
 * seat, listing one's own bookings, checking in and cancelling, over the
 * `seats` and `reservations` tables. The new reservation's id (a version 4
 * UUID, section 5.4 of RFC 9562) and the clock are parameters.
 */
module Reservations {
  import opened Wrappers
  import opened Sorting
  import opened Store
  import Models

  /** The two tables the endpoints read and write. */
  datatype Tables = Tables(seats: seq<Seat>, reservations: seq<Reservation>)

  /** The tables after a request, and its reply or the error it raised. */
  datatype Outcome<T> = Outcome(tables: Tables, reply: Result<T, ApiError>)

  const SeatNotFound := ApiError(NotFound, "Seat not found")
  const SeatNotAvailable := ApiError(BadRequest, "Seat is not available")
  const ReservationNotFound := ApiError(NotFound, "Reservation not found")
  const CancelledMessage := "Reservation cancelled successfully"

  /** The query condition `Reservation.id == id, Reservation.user_id == user`. */
  function OwnedBy(id: string, userId: string): Reservation -> bool {
    (r: Reservation) => r.id == id && r.userId == userId
  }

  /** The caller's reservation with that id. */
  function Owned(rs: seq<Reservation>, id: string, userId: string): (r: Option<nat>)
    ensures r.Some? ==> r.value < |rs| && rs[r.value].id == id && rs[r.value].userId == userId
    ensures r.None? <==> forall k :: 0 <= k < |rs| ==> !(rs[k].id == id && rs[k].userId == userId)
  {
    FirstIndex(rs, OwnedBy(id, userId))
  }

  /** No stored reservation has this id. */
  predicate FreshId(rs: seq<Reservation>, id: string) {
    forall k :: 0 <= k < |rs| ==> rs[k].id != id
  }

  /**
   * `create_reservation`: 404 for an unknown seat and 400 for a seat that
   * is not available, with the tables untouched; otherwise one confirmed
   * reservation of the caller is added and the seat becomes reserved.
   */
  function Create(t: Tables, userId: string, seatId: string, start: int, end: int, newId: string, created: int): (o: Outcome<Reservation>)
    ensures SeatById(t.seats, seatId).None? ==> o == Outcome(t, Err(SeatNotFound))
    ensures SeatById(t.seats, seatId).Some? && t.seats[SeatById(t.seats, seatId).value].status != Available ==>
      o == Outcome(t, Err(SeatNotAvailable))
    ensures o.reply.Ok? <==>
      SeatById(t.seats, seatId).Some? && t.seats[SeatById(t.seats, seatId).value].status == Available
    ensures o.reply.Ok? ==>
      o.reply.value == Reservation(newId, userId, seatId, start, end, None, Models.Confirmed, created)
    ensures o.reply.Ok? ==> o.tables.reservations == t.reservations + [o.reply.value]
    ensures o.reply.Ok? ==> o.tables.seats == WithStatus(t.seats, SeatById(t.seats, seatId).value, Reserved)
  {
    match SeatById(t.seats, seatId)
    case None => Outcome(t, Err(SeatNotFound))
    case Some(i) =>
      if t.seats[i].status != Available then Outcome(t, Err(SeatNotAvailable))
      else
        var r := Reservation(newId, userId, seatId, start, end, None, Models.Confirmed, created);
        Outcome(Tables(WithStatus(t.seats, i, Reserved), t.reservations + [r]), Ok(r))
  }

  /** The query condition `Reservation.user_id == user`. */
  function BelongsTo(userId: string): Reservation -> bool {
    (r: Reservation) => r.userId == userId
  }

  /** `start_time` descending: `a` may come before `b` when it starts no earlier. */
  function StartsNoEarlier(): (Reservation, Reservation) -> bool {
    (a: Reservation, b: Reservation) => a.startTime >= b.startTime
  }

  /**
   * `get_my_reservations`: the caller's reservations, latest start first;
   * reservations starting at the same time keep table order.
   */
  function MyReservations(rs: seq<Reservation>, userId: string): (r: seq<Reservation>)
    ensures multiset(r) == multiset(Filter(rs, BelongsTo(userId)))
  {
    SortBy(Filter(rs, BelongsTo(userId)), StartsNoEarlier())
  }

  /**
   * The listing holds exactly the caller's reservations, each as often as
   * stored, and no one else's, ordered by start time descending.
   */
  lemma MyReservationsExact(rs: seq<Reservation>, userId: string)
    ensures forall r :: r in MyReservations(rs, userId) ==> r.userId == userId
    ensures forall r :: r in rs && r.userId == userId ==> r in MyReservations(rs, userId)
    ensures |MyReservations(rs, userId)| == |Filter(rs, BelongsTo(userId))|
    ensures forall i, j :: 0 <= i < j < |MyReservations(rs, userId)| ==>
      MyReservations(rs, userId)[i].startTime >= MyReservations(rs, userId)[j].startTime
  {
    var f := Filter(rs, BelongsTo(userId));
    var m := MyReservations(rs, userId);
    assert |m| == |multiset(m)| == |multiset(f)| == |f|;
    forall r | r in m ensures r.userId == userId {
      assert r in multiset(f);
      var k :| 0 <= k < |f| && f[k] == r;
    }
    forall r | r in rs && r.userId == userId ensures r in m {
      FilterKeeps(rs, BelongsTo(userId), r);
      assert r in multiset(m);
    }
    SortBySorted(f, StartsNoEarlier());
  }

  /**
   * `checkin_reservation`: 404 unless the caller owns a reservation with
   * that id; otherwise, whatever its status, it becomes active with the
   * check-in time, and its seat, if it still exists, becomes occupied.
   */
  function Checkin(t: Tables, userId: string, id: string, now: int): (o: Outcome<Reservation>)
    ensures o.reply.Ok? <==> Owned(t.reservations, id, userId).Some?
    ensures o.reply.Err? ==> o == Outcome(t, Err(ReservationNotFound))
    ensures o.reply.Ok? ==>
      var k := Owned(t.reservations, id, userId).value;
      o.reply.value == t.reservations[k].(checkInTime := Some(now), status := Models.Active)
        && o.tables.reservations == t.reservations[k := o.reply.value]
    ensures o.reply.Ok? ==> o.tables.seats == SetIfPresent(t.seats, o.reply.value.seatId, Occupied)
  {
    match Owned(t.reservations, id, userId)
    case None => Outcome(t, Err(ReservationNotFound))
    case Some(k) =>
      var r := t.reservations[k].(checkInTime := Some(now), status := Models.Active);
      Outcome(Tables(SetIfPresent(t.seats, r.seatId, Occupied), t.reservations[k := r]), Ok(r))
  }

  /** `if seat: seat.status = status` after looking the seat up by id. */
  function SetIfPresent(seats: seq<Seat>, seatId: string, status: SeatStatus): (r: seq<Seat>)
    ensures SeatById(seats, seatId).None? ==> r == seats
    ensures SeatById(seats, seatId).Some? ==> r == WithStatus(seats, SeatById(seats, seatId).value, status)
  {
    match SeatById(seats, seatId)
    case None => seats
    case Some(i) => WithStatus(seats, i, status)
  }

  /**
   * `cancel_reservation`: 404 unless the caller owns a reservation with
   * that id; otherwise, whatever its status, it becomes cancelled and its
   * seat, if it still exists, available again.
   */
  function Cancel(t: Tables, userId: string, id: string): (o: Outcome<string>)
    ensures o.reply.Ok? <==> Owned(t.reservations, id, userId).Some?
    ensures o.reply.Err? ==> o == Outcome(t, Err(ReservationNotFound))
    ensures o.reply.Ok? ==> o.reply.value == CancelledMessage
    ensures o.reply.Ok? ==>
      var k := Owned(t.reservations, id, userId).value;
      o.tables.reservations == t.reservations[k := t.reservations[k].(status := Models.Cancelled)]
        && o.tables.seats == SetIfPresent(t.seats, t.reservations[k].seatId, Available)
  {
    match Owned(t.reservations, id, userId)
    case None => Outcome(t, Err(ReservationNotFound))
    case Some(k) =>
      var r := t.reservations[k];
      Outcome(Tables(SetIfPresent(t.seats, r.seatId, Available), t.reservations[k := r.(status := Models.Cancelled)]), Ok(CancelledMessage))
  }

  /**
   * Booking a seat and cancelling the booking returns the seat table to
   * what it was, and leaves the reservation on record as cancelled.
   */
  lemma CreateThenCancel(t: Tables, userId: string, seatId: string, start: int, end: int, newId: string, created: int)
    requires FreshId(t.reservations, newId)
    requires Create(t, userId, seatId, start, end, newId, created).reply.Ok?
    ensures var c := Create(t, userId, seatId, start, end, newId, created);
      var o := Cancel(c.tables, userId, newId);
      o.reply.Ok? && o.tables.seats == t.seats
        && o.tables.reservations == t.reservations + [c.reply.value.(status := Models.Cancelled)]
  {
    var c := Create(t, userId, seatId, start, end, newId, created);
    var i := SeatById(t.seats, seatId).value;
    var rs := c.tables.reservations;
    FirstIndexAppend(t.reservations, [c.reply.value], OwnedBy(newId, userId));
    assert Owned(rs, newId, userId) == Some(|t.reservations|);
    WithStatusKeepsLookup(t.seats, i, Reserved, seatId);
    assert WithStatus(c.tables.seats, i, Available) == t.seats;
  }

  /**
   * Booking a seat and checking in leaves the seat occupied and the
   * reservation active with its check-in time.
   */
  lemma CreateThenCheckin(t: Tables, userId: string, seatId: string, start: int, end: int, newId: string, created: int, now: int)
    requires FreshId(t.reservations, newId)
    requires Create(t, userId, seatId, start, end, newId, created).reply.Ok?
    ensures var c := Create(t, userId, seatId, start, end, newId, created);
      var o := Checkin(c.tables, userId, newId, now);
      o.reply.Ok? && o.reply.value.status == Models.Active && o.reply.value.checkInTime == Some(now)
        && o.tables.seats == WithStatus(t.seats, SeatById(t.seats, seatId).value, Occupied)
  {
    var c := Create(t, userId, seatId, start, end, newId, created);
    var i := SeatById(t.seats, seatId).value;
    FirstIndexAppend(t.reservations, [c.reply.value], OwnedBy(newId, userId));
    assert Owned(c.tables.reservations, newId, userId) == Some(|t.reservations|);
    WithStatusKeepsLookup(t.seats, i, Reserved, seatId);
    assert WithStatus(c.tables.seats, i, Occupied) == WithStatus(t.seats, i, Occupied);
  }

  /** A new booking shows up in its owner's listing. */
  lemma CreateListed(t: Tables, userId: string, seatId: string, start: int, end: int, newId: string, created: int)
    requires Create(t, userId, seatId, start, end, newId, created).reply.Ok?
    ensures var c := Create(t, userId, seatId, start, end, newId, created);
      c.reply.value in MyReservations(c.tables.reservations, userId)
  {
    var c := Create(t, userId, seatId, start, end, newId, created);
    assert c.reply.value in c.tables.reservations;
    MyReservationsExact(c.tables.reservations, userId);
  }

  /**
   * The endpoints acting on the stored tables, one request at a time: each
   * handler looks rows up with a table scan and updates them in place.
   */
  class ReservationDesk {
    var seats: seq<Seat>
    var reservations: seq<Reservation>

    function Contents(): Tables
      reads this
    {
      Tables(seats, reservations)
    }

    constructor(seats: seq<Seat>, reservations: seq<Reservation>)
      ensures Contents() == Tables(seats, reservations)
    {
      this.seats := seats;
      this.reservations := reservations;
    }

    method CreateReservation(userId: string, seatId: string, start: int, end: int, newId: string, created: int)
      returns (reply: Result<Reservation, ApiError>)
      modifies this
      ensures Outcome(Contents(), reply) == Create(old(Contents()), userId, seatId, start, end, newId, created)
    {
      var found := FindFirst(seats, SeatIdIs(seatId));
      if found.None? {
        return Err(SeatNotFound);
      }
      var i := found.value;
      if seats[i].status != Available {
        return Err(SeatNotAvailable);
      }
      var r := Reservation(newId, userId, seatId, start, end, None, Models.Confirmed, created);
      seats := seats[i := seats[i].(status := Reserved)];
      reservations := reservations + [r];
      reply := Ok(r);
    }

    method CheckinReservation(userId: string, id: string, now: int)
      returns (reply: Result<Reservation, ApiError>)
      modifies this
      ensures Outcome(Contents(), reply) == Checkin(old(Contents()), userId, id, now)
    {
      var found := FindFirst(reservations, OwnedBy(id, userId));
      if found.None? {
        return Err(ReservationNotFound);
      }
      var k := found.value;
      var r := reservations[k].(checkInTime := Some(now), status := Models.Active);
      reservations := reservations[k := r];
      var seat := FindFirst(seats, SeatIdIs(r.seatId));
      if seat.Some? {
        seats := seats[seat.value := seats[seat.value].(status := Occupied)];
      }
      reply := Ok(r);
    }

    method CancelReservation(userId: string, id: string)
      returns (reply: Result<string, ApiError>)
      modifies this
      ensures Outcome(Contents(), reply) == Cancel(old(Contents()), userId, id)
    {
      var found := FindFirst(reservations, OwnedBy(id, userId));
      if found.None? {
        return Err(ReservationNotFound);
      }
      var k := found.value;
      var seatId := reservations[k].seatId;
      reservations := reservations[k := reservations[k].(status := Models.Cancelled)];
      var seat := FindFirst(seats, SeatIdIs(seatId));
      if seat.Some? {
        seats := seats[seat.value := seats[seat.value].(status := Available)];
      }
      reply := Ok(CancelledMessage);
    }
  }
}
