/**
 * The teaching-room endpoints with schedule clash detection
 * (backend/app/api/lecturer_location.py). Each room holds at most one
 * booking: a lecturer's email with a start and an end time. Admins create,
 * assign, update and delete rooms; lecturers list the rooms booked for
 * them. A booking is refused when it overlaps, as half-open intervals,
 * another booking of the same lecturer.
 */
module LecturerLocationApi {
  import opened Wrappers
  import opened Strings
  import opened Sorting
  import opened Store

  /** The rooms table after a request, and its reply or the error it raised. */
  datatype Outcome<T> = Outcome(rooms: seq<LectureRoom>, reply: Result<T, ApiError>)

  const AdminsOnly := ApiError(Forbidden, "Access denied: admins only")
  const LecturersOnly := ApiError(Forbidden, "Access denied: lecturers only")
  const NoRoomsAssigned := ApiError(NotFound, "No rooms assigned")
  const RoomNotFound := ApiError(NotFound, "Room not found")

  // ---------------------------------------------------------------
  // Clash detection
  // ---------------------------------------------------------------

  /**
   * `not (end <= loc.start_time or start >= loc.end_time)` for a room
   * whose booking has both times.
   */
  predicate Overlaps(start: int, end: int, room: LectureRoom) {
    room.startTime.Some? && room.endTime.Some?
      && !(end <= room.startTime.value || start >= room.endTime.value)
  }

  predicate InInterval(t: int, lo: int, hi: int) {
    lo <= t < hi
  }

  /**
   * The overlap test is exactly "the half-open intervals [start, end) and
   * [a, b) share an instant"; intervals that only touch do not clash.
   */
  lemma OverlapsIffSharedInstant(start: int, end: int, a: int, b: int)
    requires start < end && a < b
    ensures !(end <= a || start >= b) <==> exists t :: InInterval(t, start, end) && InInterval(t, a, b)
  {
    if !(end <= a || start >= b) {
      var t := if start < a then a else start;
      assert InInterval(t, start, end) && InInterval(t, a, b);
    }
  }

  /**
   * The rows the check looks at: booked for the same email, other than the
   * excluded room when a non-empty id is given (`if exclude_id:`).
   */
  predicate Considered(email: string, excludeId: Option<string>, room: LectureRoom) {
    room.lecturerEmail == Some(email)
      && !(excludeId.Some? && excludeId.value != "" && room.id == excludeId.value)
  }

  function ConflictsWith(email: string, start: int, end: int, excludeId: Option<string>): LectureRoom -> bool {
    (room: LectureRoom) => Considered(email, excludeId, room) && Overlaps(start, end, room)
  }

  /** The first booking the new one would clash with, if any. */
  function FirstConflict(rooms: seq<LectureRoom>, email: string, start: int, end: int, excludeId: Option<string>): (r: Option<nat>)
    ensures r.Some? ==>
      r.value < |rooms| && Considered(email, excludeId, rooms[r.value]) && Overlaps(start, end, rooms[r.value])
    ensures r.None? <==> forall k :: 0 <= k < |rooms| ==>
      !(Considered(email, excludeId, rooms[k]) && Overlaps(start, end, rooms[k]))
  {
    FirstIndex(rooms, ConflictsWith(email, start, end, excludeId))
  }

  /** The 400 detail naming the clashing room and its booking. */
  function ConflictDetail(room: LectureRoom): string
    requires room.startTime.Some? && room.endTime.Some?
  {
    "Schedule conflict with room '" + room.name + "' (" + room.code + ") from "
      + IntToString(room.startTime.value) + " to " + IntToString(room.endTime.value)
  }

  /** `check_schedule_conflict`: the error it raises, or nothing. */
  function CheckConflict(rooms: seq<LectureRoom>, email: string, start: int, end: int, excludeId: Option<string>): (r: Option<ApiError>)
    ensures r.None? <==> FirstConflict(rooms, email, start, end, excludeId).None?
    ensures r.Some? ==> r.value.status == BadRequest
  {
    match FirstConflict(rooms, email, start, end, excludeId)
    case None => None
    case Some(k) => Some(ApiError(BadRequest, ConflictDetail(rooms[k])))
  }

  // ---------------------------------------------------------------
  // The invariant the checks protect
  // ---------------------------------------------------------------

  /** Two rows booked for the same (non-empty) email at overlapping times. */
  predicate Clash(a: LectureRoom, b: LectureRoom) {
    a.lecturerEmail.Some? && a.lecturerEmail.value != "" && a.lecturerEmail == b.lecturerEmail
      && a.startTime.Some? && a.endTime.Some? && Overlaps(a.startTime.value, a.endTime.value, b)
  }

  lemma ClashSymmetric(a: LectureRoom, b: LectureRoom)
    ensures Clash(a, b) <==> Clash(b, a)
  {
  }

  /** No lecturer is booked into two rooms at overlapping times. */
  predicate NoDoubleBooking(rooms: seq<LectureRoom>) {
    forall i, j :: 0 <= i < |rooms| && 0 <= j < |rooms| && i != j ==> !Clash(rooms[i], rooms[j])
  }

  /** Room ids are a primary key. */
  predicate UniqueIds(rooms: seq<LectureRoom>) {
    forall i, j :: 0 <= i < |rooms| && 0 <= j < |rooms| && rooms[i].id == rooms[j].id ==> i == j
  }

  /** The query condition `LecturerLocation.id == room_id`. */
  function RoomIdIs(roomId: string): LectureRoom -> bool {
    (room: LectureRoom) => room.id == roomId
  }

  function RoomById(rooms: seq<LectureRoom>, roomId: string): (r: Option<nat>)
    ensures r.Some? ==> r.value < |rooms| && rooms[r.value].id == roomId
    ensures r.None? <==> forall k :: 0 <= k < |rooms| ==> rooms[k].id != roomId
  {
    FirstIndex(rooms, RoomIdIs(roomId))
  }

  /**
   * Booking row `i` for `email` over [start, end) when no other row of that
   * email overlaps keeps every lecturer free of double bookings.
   */
  lemma BookingKeepsNoDoubleBooking(rooms: seq<LectureRoom>, i: nat, email: Option<string>, start: Option<int>, end: Option<int>)
    requires NoDoubleBooking(rooms) && i < |rooms|
    requires email.Some? && email.value != "" && start.Some? && end.Some? ==>
      forall k :: 0 <= k < |rooms| && k != i && rooms[k].lecturerEmail == email ==> !Overlaps(start.value, end.value, rooms[k])
    ensures NoDoubleBooking(rooms[i := rooms[i].(lecturerEmail := email, startTime := start, endTime := end)])
  {
    var r := rooms[i := rooms[i].(lecturerEmail := email, startTime := start, endTime := end)];
    forall a, b | 0 <= a < |r| && 0 <= b < |r| && a != b ensures !Clash(r[a], r[b]) {
      if a == i {
        assert r[b] == rooms[b];
      } else if b == i {
        assert r[a] == rooms[a];
        ClashSymmetric(r[a], r[b]);
      } else {
        assert r[a] == rooms[a] && r[b] == rooms[b];
      }
    }
  }

  // ---------------------------------------------------------------
  // The endpoints
  // ---------------------------------------------------------------

  /** The query condition `LecturerLocation.lecturer_email == email`. */
  function BookedFor(email: string): LectureRoom -> bool {
    (room: LectureRoom) => room.lecturerEmail == Some(email)
  }

  /**
   * `get_my_rooms`: 403 for anyone but a lecturer, 404 when nothing is
   * booked for their email, otherwise exactly those rooms in table order.
   */
  function MyRooms(rooms: seq<LectureRoom>, user: User): (r: Result<seq<LectureRoom>, ApiError>)
    ensures user.role != Lecturer ==> r == Err(LecturersOnly)
    ensures user.role == Lecturer && Filter(rooms, BookedFor(user.email)) == [] ==> r == Err(NoRoomsAssigned)
    ensures r.Ok? ==> r.value == Filter(rooms, BookedFor(user.email)) && r.value != []
  {
    if user.role != Lecturer then Err(LecturersOnly)
    else
      var mine := Filter(rooms, BookedFor(user.email));
      if mine == [] then Err(NoRoomsAssigned) else Ok(mine)
  }

  /** `get_all_rooms`: every room, for admins only. */
  function AllRooms(rooms: seq<LectureRoom>, user: User): (r: Result<seq<LectureRoom>, ApiError>)
    ensures r.Ok? <==> user.role == Admin
    ensures r.Ok? ==> r.value == rooms
    ensures r.Err? ==> r.error == AdminsOnly
  {
    if user.role != Admin then Err(AdminsOnly) else Ok(rooms)
  }

  /** `create_room`: an admin adds the room as given, under a new id, unchecked. */
  function CreateRoom(rooms: seq<LectureRoom>, user: User, payload: LectureRoom, newId: string): (o: Outcome<LectureRoom>)
    ensures user.role != Admin ==> o == Outcome(rooms, Err(AdminsOnly))
    ensures user.role == Admin ==> o.reply == Ok(payload.(id := newId)) && o.rooms == rooms + [payload.(id := newId)]
  {
    if user.role != Admin then Outcome(rooms, Err(AdminsOnly))
    else Outcome(rooms + [payload.(id := newId)], Ok(payload.(id := newId)))
  }

  /**
   * `assign_room`: 403 for non-admins before any lookup, 404 for an
   * unknown room, 400 when the booking clashes with another room of the
   * lecturer; otherwise the room gets the email and both times.
   */
  function Assign(rooms: seq<LectureRoom>, user: User, roomId: string, email: string, start: int, end: int): (o: Outcome<LectureRoom>)
    ensures user.role != Admin ==> o == Outcome(rooms, Err(AdminsOnly))
    ensures user.role == Admin && RoomById(rooms, roomId).None? ==> o == Outcome(rooms, Err(RoomNotFound))
    ensures o.reply.Err? ==> o.rooms == rooms
    ensures o.reply.Ok? <==>
      user.role == Admin && RoomById(rooms, roomId).Some? && FirstConflict(rooms, email, start, end, Some(roomId)).None?
    ensures o.reply.Ok? ==>
      var i := RoomById(rooms, roomId).value;
      o.reply.value == rooms[i].(lecturerEmail := Some(email), startTime := Some(start), endTime := Some(end))
        && o.rooms == rooms[i := o.reply.value]
  {
    if user.role != Admin then Outcome(rooms, Err(AdminsOnly))
    else match RoomById(rooms, roomId)
      case None => Outcome(rooms, Err(RoomNotFound))
      case Some(i) =>
        match CheckConflict(rooms, email, start, end, Some(roomId))
        case Some(e) => Outcome(rooms, Err(e))
        case None =>
          var room := rooms[i].(lecturerEmail := Some(email), startTime := Some(start), endTime := Some(end));
          Outcome(rooms[i := room], Ok(room))
  }

  /** Assignment never lets a lecturer be double-booked. */
  lemma AssignKeepsNoDoubleBooking(rooms: seq<LectureRoom>, user: User, roomId: string, email: string, start: int, end: int)
    requires UniqueIds(rooms) && NoDoubleBooking(rooms)
    ensures UniqueIds(Assign(rooms, user, roomId, email, start, end).rooms)
    ensures NoDoubleBooking(Assign(rooms, user, roomId, email, start, end).rooms)
  {
    var o := Assign(rooms, user, roomId, email, start, end);
    if o.reply.Ok? {
      var i := RoomById(rooms, roomId).value;
      forall k | 0 <= k < |rooms| && k != i && rooms[k].lecturerEmail == Some(email)
        ensures !Overlaps(start, end, rooms[k])
      {
        assert Considered(email, Some(roomId), rooms[k]) || roomId == "";
      }
      BookingKeepsNoDoubleBooking(rooms, i, Some(email), Some(start), Some(end));
    }
  }

  /**
   * Repeating a successful assignment succeeds again and changes nothing
   * (room ids are never empty, so the room's own booking is excluded).
   */
  lemma AssignIdempotent(rooms: seq<LectureRoom>, user: User, roomId: string, email: string, start: int, end: int)
    requires UniqueIds(rooms) && roomId != ""
    requires Assign(rooms, user, roomId, email, start, end).reply.Ok?
    ensures var o := Assign(rooms, user, roomId, email, start, end);
      Assign(o.rooms, user, roomId, email, start, end) == o
  {
    var o := Assign(rooms, user, roomId, email, start, end);
    var i := RoomById(rooms, roomId).value;
    FirstIndexUpdate(rooms, i, o.reply.value, RoomIdIs(roomId));
    assert o.rooms[i := o.reply.value] == o.rooms;
  }

  /** A partial update: every field is either left out or given. */
  datatype RoomUpdate = RoomUpdate(
    name: Field<string>, imageUrl: Field<Option<string>>, capacity: Field<int>,
    subject: Field<Option<string>>, startTime: Field<Option<int>>, endTime: Field<Option<int>>,
    state: Field<RoomState>, lecturerEmail: Field<Option<string>>)

  /** `setattr` for each supplied field; every other field keeps its value. */
  function Apply(room: LectureRoom, u: RoomUpdate): (r: LectureRoom)
    ensures r.id == room.id && r.code == room.code && r.liveOccupancy == room.liveOccupancy
    ensures u.name.Unset? ==> r.name == room.name
    ensures u.startTime.Unset? ==> r.startTime == room.startTime
    ensures u.endTime.Unset? ==> r.endTime == room.endTime
    ensures u.lecturerEmail.Unset? ==> r.lecturerEmail == room.lecturerEmail
    ensures u.startTime.Set? ==> r.startTime == u.startTime.value
    ensures u.endTime.Set? ==> r.endTime == u.endTime.value
    ensures u.lecturerEmail.Set? ==> r.lecturerEmail == u.lecturerEmail.value
  {
    room.(name := Merge(u.name, room.name), imageUrl := Merge(u.imageUrl, room.imageUrl),
      capacity := Merge(u.capacity, room.capacity), subject := Merge(u.subject, room.subject),
      startTime := Merge(u.startTime, room.startTime), endTime := Merge(u.endTime, room.endTime),
      state := Merge(u.state, room.state), lecturerEmail := Merge(u.lecturerEmail, room.lecturerEmail))
  }

  predicate TouchesBooking(u: RoomUpdate) {
    u.lecturerEmail.Set? || u.startTime.Set? || u.endTime.Set?
  }

  /**
   * The clash check of `update_room`: only when the request touches the
   * booking, on the request's values merged over the stored ones, and only
   * when the merged email is non-empty and both times are set.
   */
  function UpdateCheck(rooms: seq<LectureRoom>, room: LectureRoom, u: RoomUpdate): (r: Option<ApiError>)
    ensures !TouchesBooking(u) ==> r.None?
    ensures r.Some? ==> r.value.status == BadRequest
  {
    if !TouchesBooking(u) then None
    else
      var email := Merge(u.lecturerEmail, room.lecturerEmail);
      var start := Merge(u.startTime, room.startTime);
      var end := Merge(u.endTime, room.endTime);
      if email.Some? && email.value != "" && start.Some? && end.Some? then
        CheckConflict(rooms, email.value, start.value, end.value, Some(room.id))
      else None
  }

  /**
   * `update_room`: 403, then 404, then the clash check; after a passing
   * check every supplied field is applied and nothing else changes.
   */
  function Update(rooms: seq<LectureRoom>, user: User, roomId: string, u: RoomUpdate): (o: Outcome<LectureRoom>)
    ensures user.role != Admin ==> o == Outcome(rooms, Err(AdminsOnly))
    ensures user.role == Admin && RoomById(rooms, roomId).None? ==> o == Outcome(rooms, Err(RoomNotFound))
    ensures o.reply.Err? ==> o.rooms == rooms
    ensures o.reply.Ok? <==>
      user.role == Admin && RoomById(rooms, roomId).Some? && UpdateCheck(rooms, rooms[RoomById(rooms, roomId).value], u).None?
    ensures o.reply.Ok? ==>
      var i := RoomById(rooms, roomId).value;
      o.reply.value == Apply(rooms[i], u) && o.rooms == rooms[i := o.reply.value]
  {
    if user.role != Admin then Outcome(rooms, Err(AdminsOnly))
    else match RoomById(rooms, roomId)
      case None => Outcome(rooms, Err(RoomNotFound))
      case Some(i) =>
        match UpdateCheck(rooms, rooms[i], u)
        case Some(e) => Outcome(rooms, Err(e))
        case None => Outcome(rooms[i := Apply(rooms[i], u)], Ok(Apply(rooms[i], u)))
  }

  /** Updates never let a lecturer be double-booked either. */
  lemma UpdateKeepsNoDoubleBooking(rooms: seq<LectureRoom>, user: User, roomId: string, u: RoomUpdate)
    requires UniqueIds(rooms) && NoDoubleBooking(rooms)
    ensures UniqueIds(Update(rooms, user, roomId, u).rooms)
    ensures NoDoubleBooking(Update(rooms, user, roomId, u).rooms)
  {
    var o := Update(rooms, user, roomId, u);
    if o.reply.Ok? {
      var i := RoomById(rooms, roomId).value;
      var room := rooms[i];
      var a := Apply(room, u);
      var email, start, end := a.lecturerEmail, a.startTime, a.endTime;
      if email.Some? && email.value != "" && start.Some? && end.Some? {
        if !TouchesBooking(u) {
          assert a.lecturerEmail == room.lecturerEmail && a.startTime == room.startTime && a.endTime == room.endTime;
          forall k | 0 <= k < |rooms| && k != i && rooms[k].lecturerEmail == email
            ensures !Overlaps(start.value, end.value, rooms[k])
          {
            assert !Clash(rooms[i], rooms[k]);
          }
        } else {
          forall k | 0 <= k < |rooms| && k != i && rooms[k].lecturerEmail == email
            ensures !Overlaps(start.value, end.value, rooms[k])
          {
            assert Considered(email.value, Some(room.id), rooms[k]) || room.id == "";
          }
        }
      }
      BookingKeepsNoDoubleBooking(rooms, i, email, start, end);
      assert o.rooms == rooms[i := rooms[i].(lecturerEmail := email, startTime := start, endTime := end)][i := a];
      KeepBookingFields(rooms, i, a);
    }
  }

  /** Rewriting a row's other fields keeps the bookings, so the invariants. */
  lemma KeepBookingFields(rooms: seq<LectureRoom>, i: nat, a: LectureRoom)
    requires i < |rooms| && a.id == rooms[i].id
    requires NoDoubleBooking(rooms[i := rooms[i].(lecturerEmail := a.lecturerEmail, startTime := a.startTime, endTime := a.endTime)])
    requires UniqueIds(rooms)
    ensures NoDoubleBooking(rooms[i := a]) && UniqueIds(rooms[i := a])
  {
    var b := rooms[i := rooms[i].(lecturerEmail := a.lecturerEmail, startTime := a.startTime, endTime := a.endTime)];
    var r := rooms[i := a];
    forall x, y | 0 <= x < |r| && 0 <= y < |r| && x != y ensures !Clash(r[x], r[y]) {
      assert !Clash(b[x], b[y]);
    }
  }

  /** `delete_room`: 403, then 404, then the row is removed. */
  function Delete(rooms: seq<LectureRoom>, user: User, roomId: string): (o: Outcome<()>)
    ensures user.role != Admin ==> o == Outcome(rooms, Err(AdminsOnly))
    ensures user.role == Admin && RoomById(rooms, roomId).None? ==> o == Outcome(rooms, Err(RoomNotFound))
    ensures o.reply.Ok? <==> user.role == Admin && RoomById(rooms, roomId).Some?
    ensures o.reply.Ok? ==>
      var i := RoomById(rooms, roomId).value;
      o.rooms == rooms[..i] + rooms[i + 1..]
  {
    if user.role != Admin then Outcome(rooms, Err(AdminsOnly))
    else match RoomById(rooms, roomId)
      case None => Outcome(rooms, Err(RoomNotFound))
      case Some(i) => Outcome(rooms[..i] + rooms[i + 1..], Ok(()))
  }

  /** Removing a room keeps the others free of clashes. */
  lemma DeleteKeepsNoDoubleBooking(rooms: seq<LectureRoom>, user: User, roomId: string)
    requires UniqueIds(rooms) && NoDoubleBooking(rooms)
    ensures UniqueIds(Delete(rooms, user, roomId).rooms)
    ensures NoDoubleBooking(Delete(rooms, user, roomId).rooms)
  {
    var o := Delete(rooms, user, roomId);
    if o.reply.Ok? {
      var i := RoomById(rooms, roomId).value;
      var r := o.rooms;
      forall x | 0 <= x < |r| ensures r[x] == rooms[if x < i then x else x + 1] {
      }
    }
  }

  // ---------------------------------------------------------------
  // The endpoints over the stored table
  // ---------------------------------------------------------------

  class RoomDesk {
    var rooms: seq<LectureRoom>

    constructor(rooms: seq<LectureRoom>)
      ensures this.rooms == rooms
    {
      this.rooms := rooms;
    }

    /** The conflict loop: raises on the first overlapping booking. */
    method CheckScheduleConflict(email: string, start: int, end: int, excludeId: Option<string>) returns (r: Option<ApiError>)
      ensures r == CheckConflict(rooms, email, start, end, excludeId)
    {
      for k := 0 to |rooms|
        invariant forall j :: 0 <= j < k ==> !ConflictsWith(email, start, end, excludeId)(rooms[j])
      {
        var loc := rooms[k];
        if loc.startTime.Some? && loc.endTime.Some? {
          var overlap := !(end <= loc.startTime.value || start >= loc.endTime.value);
          if overlap && Considered(email, excludeId, loc) {
            FirstIndexUnique(rooms, ConflictsWith(email, start, end, excludeId), Some(k));
            return Some(ApiError(BadRequest, ConflictDetail(loc)));
          }
        }
      }
      FirstIndexUnique(rooms, ConflictsWith(email, start, end, excludeId), None);
      r := None;
    }

    method AssignRoom(user: User, roomId: string, email: string, start: int, end: int)
      returns (reply: Result<LectureRoom, ApiError>)
      modifies this
      ensures Outcome(rooms, reply) == Assign(old(rooms), user, roomId, email, start, end)
    {
      if user.role != Admin {
        return Err(AdminsOnly);
      }
      var found := FindFirst(rooms, RoomIdIs(roomId));
      if found.None? {
        return Err(RoomNotFound);
      }
      var conflict := CheckScheduleConflict(email, start, end, Some(roomId));
      if conflict.Some? {
        return Err(conflict.value);
      }
      var i := found.value;
      var room := rooms[i].(lecturerEmail := Some(email), startTime := Some(start), endTime := Some(end));
      rooms := rooms[i := room];
      reply := Ok(room);
    }

    method UpdateRoom(user: User, roomId: string, u: RoomUpdate)
      returns (reply: Result<LectureRoom, ApiError>)
      modifies this
      ensures Outcome(rooms, reply) == Update(old(rooms), user, roomId, u)
    {
      if user.role != Admin {
        return Err(AdminsOnly);
      }
      var found := FindFirst(rooms, RoomIdIs(roomId));
      if found.None? {
        return Err(RoomNotFound);
      }
      var i := found.value;
      var room := rooms[i];
      if TouchesBooking(u) {
        var email := Merge(u.lecturerEmail, room.lecturerEmail);
        var start := Merge(u.startTime, room.startTime);
        var end := Merge(u.endTime, room.endTime);
        if email.Some? && email.value != "" && start.Some? && end.Some? {
          var conflict := CheckScheduleConflict(email.value, start.value, end.value, Some(room.id));
          if conflict.Some? {
            return Err(conflict.value);
          }
        }
      }
      rooms := rooms[i := Apply(room, u)];
      reply := Ok(rooms[i]);
    }

    method DeleteRoom(user: User, roomId: string) returns (reply: Result<(), ApiError>)
      modifies this
      ensures Outcome(rooms, reply) == Delete(old(rooms), user, roomId)
    {
      if user.role != Admin {
        return Err(AdminsOnly);
      }
      var found := FindFirst(rooms, RoomIdIs(roomId));
      if found.None? {
        return Err(RoomNotFound);
      }
      rooms := rooms[..found.value] + rooms[found.value + 1..];
      reply := Ok(());
    }
  }
}
