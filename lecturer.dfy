/**
 * The second set of teaching-room endpoints (backend/app/api/lecturer.py)
 * over the same rooms table: a boolean clash test, a lecturer-only guard,
 * and admin endpoints that assign, update and clear a room's booking.
 */
module LecturerApi {
  import opened Wrappers
  import opened Sorting
  import opened Store
  import L = LecturerLocationApi

  const AdminsOnly := ApiError(Forbidden, "Admins only")
  const LecturerRequired := ApiError(Forbidden, "Lecturer access required")
  const ConflictDetected := ApiError(BadRequest, "Schedule conflict detected")

  /** `start < loc.end_time and end > loc.start_time` for a same-email row with both times. */
  function Clashes(email: string, start: int, end: int, excludeId: Option<string>): LectureRoom -> bool {
    (room: LectureRoom) =>
      room.lecturerEmail == Some(email)
      && !(excludeId.Some? && excludeId.value != "" && room.id == excludeId.value)
      && room.startTime.Some? && room.endTime.Some?
      && start < room.endTime.value && end > room.startTime.value
  }

  /** `check_schedule_conflict`: some booking of that email overlaps [start, end). */
  function HasConflict(rooms: seq<LectureRoom>, email: string, start: int, end: int, excludeId: Option<string>): (b: bool)
    ensures b <==> exists k :: 0 <= k < |rooms| && Clashes(email, start, end, excludeId)(rooms[k])
  {
    FirstIndex(rooms, Clashes(email, start, end, excludeId)).Some?
  }

  /** The boolean test and the raising test of the other router agree. */
  lemma SameConflictTest(rooms: seq<LectureRoom>, email: string, start: int, end: int, excludeId: Option<string>)
    ensures HasConflict(rooms, email, start, end, excludeId)
      <==> L.FirstConflict(rooms, email, start, end, excludeId).Some?
  {
    if HasConflict(rooms, email, start, end, excludeId) {
      var k :| 0 <= k < |rooms| && Clashes(email, start, end, excludeId)(rooms[k]);
      assert L.Considered(email, excludeId, rooms[k]) && L.Overlaps(start, end, rooms[k]);
    }
  }

  /** The conflict loop, returning at the first overlapping booking. */
  method HasScheduleConflict(rooms: seq<LectureRoom>, email: string, start: int, end: int, excludeId: Option<string>)
    returns (b: bool)
    ensures b == HasConflict(rooms, email, start, end, excludeId)
  {
    for k := 0 to |rooms|
      invariant forall j :: 0 <= j < k ==> !Clashes(email, start, end, excludeId)(rooms[j])
    {
      var loc := rooms[k];
      if Clashes(email, start, end, excludeId)(loc) {
        return true;
      }
    }
    return false;
  }

  /** `require_lecturer`: anyone but a lecturer gets 403. */
  function RequireLecturer(user: User): (r: Result<User, ApiError>)
    ensures r.Ok? <==> user.role == Lecturer
    ensures r.Ok? ==> r.value == user
    ensures r.Err? ==> r.error == LecturerRequired
  {
    if user.role != Lecturer then Err(LecturerRequired) else Ok(user)
  }

  /** `get_my_rooms`: a lecturer's booked rooms, possibly none. */
  function MyRooms(rooms: seq<LectureRoom>, user: User): (r: Result<seq<LectureRoom>, ApiError>)
    ensures r.Ok? <==> user.role == Lecturer
    ensures r.Ok? ==> r.value == Filter(rooms, L.BookedFor(user.email))
  {
    match RequireLecturer(user)
    case Err(e) => Err(e)
    case Ok(u) => Ok(Filter(rooms, L.BookedFor(u.email)))
  }

  /**
   * `assign_room` as written: 403 for anyone but an admin. For an admin the
   * room lookup reads `assignment.id`, a field the assign payload does not
   * have, so the request fails with a 500 before the 404, the clash test or
   * any store. The payload's email and times are never used.
   */
  function Assign(rooms: seq<LectureRoom>, user: User, email: string, start: int, end: int): (o: L.Outcome<LectureRoom>)
    ensures o.rooms == rooms && o.reply.Err?
    ensures user.role != Admin ==> o.reply.error == AdminsOnly
    ensures user.role == Admin ==> o.reply.error.status == ServerError
  {
    if user.role != Admin then L.Outcome(rooms, Err(AdminsOnly))
    else L.Outcome(rooms, Err(Unhandled))
  }

  /**
   * The assignment as intended: the room named by `roomId` is looked up
   * (403, then 404), the clash test leaves that room's own booking out, as
   * `exclude_id` does in the other router, and the room's `email` column
   * and both times take the request's values.
   */
  function AssignById(rooms: seq<LectureRoom>, user: User, roomId: string, email: string, start: int, end: int): (o: L.Outcome<LectureRoom>)
    ensures user.role != Admin ==> o == L.Outcome(rooms, Err(AdminsOnly))
    ensures user.role == Admin && L.RoomById(rooms, roomId).None? ==> o == L.Outcome(rooms, Err(L.RoomNotFound))
    ensures o.reply.Err? ==> o.rooms == rooms
    ensures o.reply.Ok? <==>
      user.role == Admin && L.RoomById(rooms, roomId).Some? && !HasConflict(rooms, email, start, end, Some(roomId))
    ensures o.reply.Ok? ==>
      var i := L.RoomById(rooms, roomId).value;
      o.reply.value == rooms[i].(lecturerEmail := Some(email), startTime := Some(start), endTime := Some(end))
        && o.rooms == rooms[i := o.reply.value]
  {
    if user.role != Admin then L.Outcome(rooms, Err(AdminsOnly))
    else match L.RoomById(rooms, roomId)
      case None => L.Outcome(rooms, Err(L.RoomNotFound))
      case Some(i) =>
        if HasConflict(rooms, email, start, end, Some(roomId)) then L.Outcome(rooms, Err(ConflictDetected))
        else
          var room := rooms[i].(lecturerEmail := Some(email), startTime := Some(start), endTime := Some(end));
          L.Outcome(rooms[i := room], Ok(room))
  }

  /**
   * Where the intended assignment books a room, the handler as written
   * answers 500 and books nothing.
   */
  lemma AssignAlwaysFails(rooms: seq<LectureRoom>, user: User, roomId: string, email: string, start: int, end: int)
    requires user.role == Admin && L.RoomById(rooms, roomId).Some?
    requires !HasConflict(rooms, email, start, end, Some(roomId))
    ensures AssignById(rooms, user, roomId, email, start, end).reply.Ok?
    ensures Assign(rooms, user, email, start, end) == L.Outcome(rooms, Err(Unhandled))
  {
  }

  /** The intended assignment keeps lecturers free of double bookings. */
  lemma AssignByIdKeepsNoDoubleBooking(rooms: seq<LectureRoom>, user: User, roomId: string, email: string, start: int, end: int)
    requires L.NoDoubleBooking(rooms) && L.UniqueIds(rooms)
    ensures L.NoDoubleBooking(AssignById(rooms, user, roomId, email, start, end).rooms)
    ensures L.UniqueIds(AssignById(rooms, user, roomId, email, start, end).rooms)
  {
    var o := AssignById(rooms, user, roomId, email, start, end);
    if o.reply.Ok? {
      var i := L.RoomById(rooms, roomId).value;
      forall k | 0 <= k < |rooms| && k != i && rooms[k].lecturerEmail == Some(email)
        ensures !L.Overlaps(start, end, rooms[k])
      {
        assert !Clashes(email, start, end, Some(roomId))(rooms[k]) || roomId == "";
      }
      L.BookingKeepsNoDoubleBooking(rooms, i, Some(email), Some(start), Some(end));
    }
  }

  /**
   * Because the room's own booking is left out of the clash test, repeating
   * a successful assignment succeeds again and changes nothing.
   */
  lemma AssignByIdIdempotent(rooms: seq<LectureRoom>, user: User, roomId: string, email: string, start: int, end: int)
    requires L.UniqueIds(rooms) && roomId != ""
    requires AssignById(rooms, user, roomId, email, start, end).reply.Ok?
    ensures var o := AssignById(rooms, user, roomId, email, start, end);
      AssignById(o.rooms, user, roomId, email, start, end) == o
  {
    var o := AssignById(rooms, user, roomId, email, start, end);
    var i := L.RoomById(rooms, roomId).value;
    FirstIndexUpdate(rooms, i, o.reply.value, L.RoomIdIs(roomId));
    forall k | 0 <= k < |o.rooms| ensures !Clashes(email, start, end, Some(roomId))(o.rooms[k]) {
      if k != i {
        assert o.rooms[k] == rooms[k];
      }
    }
    assert o.rooms[i := o.reply.value] == o.rooms;
  }

  /**
   * `update_room` as written: 403, then 404; then `setattr` for every
   * supplied field, with no clash check. `lecturer_email` is not a column
   * of the table, so that field is set on the loaded object only and the
   * stored row keeps its `email`.
   */
  function Update(rooms: seq<LectureRoom>, user: User, roomId: string, u: L.RoomUpdate): (o: L.Outcome<LectureRoom>)
    ensures user.role != Admin ==> o == L.Outcome(rooms, Err(AdminsOnly))
    ensures user.role == Admin && L.RoomById(rooms, roomId).None? ==> o == L.Outcome(rooms, Err(L.RoomNotFound))
    ensures o.reply.Err? ==> o.rooms == rooms
    ensures o.reply.Ok? <==> user.role == Admin && L.RoomById(rooms, roomId).Some?
    ensures o.reply.Ok? ==>
      var i := L.RoomById(rooms, roomId).value;
      o.reply.value == L.Apply(rooms[i], u.(lecturerEmail := Unset)) && o.rooms == rooms[i := o.reply.value]
        && o.reply.value.lecturerEmail == rooms[i].lecturerEmail
  {
    if user.role != Admin then L.Outcome(rooms, Err(AdminsOnly))
    else match L.RoomById(rooms, roomId)
      case None => L.Outcome(rooms, Err(L.RoomNotFound))
      case Some(i) =>
        var room := L.Apply(rooms[i], u.(lecturerEmail := Unset));
        L.Outcome(rooms[i := room], Ok(room))
  }

  /**
   * The update as intended: 403, then 404; an update touching the booking
   * is clash-checked, as the other router does, and a new lecturer is
   * written to the `email` column.
   */
  function UpdateChecked(rooms: seq<LectureRoom>, user: User, roomId: string, u: L.RoomUpdate): (o: L.Outcome<LectureRoom>)
    ensures user.role != Admin ==> o == L.Outcome(rooms, Err(AdminsOnly))
    ensures user.role == Admin && L.RoomById(rooms, roomId).None? ==> o == L.Outcome(rooms, Err(L.RoomNotFound))
    ensures o.reply.Err? ==> o.rooms == rooms
    ensures o.reply.Ok? <==>
      user.role == Admin && L.RoomById(rooms, roomId).Some?
        && L.UpdateCheck(rooms, rooms[L.RoomById(rooms, roomId).value], u).None?
    ensures o.reply.Ok? ==>
      var i := L.RoomById(rooms, roomId).value;
      o.reply.value == L.Apply(rooms[i], u) && o.rooms == rooms[i := o.reply.value]
  {
    if user.role != Admin then L.Outcome(rooms, Err(AdminsOnly))
    else match L.RoomById(rooms, roomId)
      case None => L.Outcome(rooms, Err(L.RoomNotFound))
      case Some(i) =>
        if L.UpdateCheck(rooms, rooms[i], u).Some? then L.Outcome(rooms, Err(ConflictDetected))
        else L.Outcome(rooms[i := L.Apply(rooms[i], u)], Ok(L.Apply(rooms[i], u)))
  }

  /** The intended update never lets a lecturer be double-booked. */
  lemma UpdateCheckedKeepsNoDoubleBooking(rooms: seq<LectureRoom>, user: User, roomId: string, u: L.RoomUpdate)
    requires L.UniqueIds(rooms) && L.NoDoubleBooking(rooms)
    ensures L.UniqueIds(UpdateChecked(rooms, user, roomId, u).rooms)
    ensures L.NoDoubleBooking(UpdateChecked(rooms, user, roomId, u).rooms)
  {
    assert UpdateChecked(rooms, user, roomId, u).rooms == L.Update(rooms, user, roomId, u).rooms;
    L.UpdateKeepsNoDoubleBooking(rooms, user, roomId, u);
  }

  /**
   * An update naming a new lecturer is stored by the intended update and
   * lost by the handler as written: the room stays booked under its old
   * `email`.
   */
  lemma UpdateKeepsLecturer(rooms: seq<LectureRoom>, user: User, roomId: string, u: L.RoomUpdate)
    requires user.role == Admin && L.RoomById(rooms, roomId).Some?
    requires L.UpdateCheck(rooms, rooms[L.RoomById(rooms, roomId).value], u).None?
    requires u.lecturerEmail.Set? && u.lecturerEmail.value != rooms[L.RoomById(rooms, roomId).value].lecturerEmail
    ensures var i := L.RoomById(rooms, roomId).value;
      Update(rooms, user, roomId, u).rooms[i].lecturerEmail == rooms[i].lecturerEmail
        && UpdateChecked(rooms, user, roomId, u).rooms[i].lecturerEmail == u.lecturerEmail.value
        && Update(rooms, user, roomId, u).rooms != UpdateChecked(rooms, user, roomId, u).rooms
  {
    var i := L.RoomById(rooms, roomId).value;
    assert Update(rooms, user, roomId, u).rooms[i].lecturerEmail != UpdateChecked(rooms, user, roomId, u).rooms[i].lecturerEmail;
  }

  /**
   * Without a clash check an update can double-book a lecturer: two rooms
   * booked under one `email`, the second given times over the first one's
   * hour. The request supplies every field, as the update schema demands.
   * The intended update refuses the same request.
   */
  lemma UpdateCanDoubleBook()
    ensures var a := LectureRoom("a", "A1", "A", None, 10, None, Some(0), Some(60), Some("l@x"), None, RoomActive);
      var b := LectureRoom("b", "B1", "B", None, 10, None, None, None, Some("l@x"), None, RoomActive);
      var u := L.RoomUpdate(Set("B"), Set(None), Set(10), Set(None), Set(Some(30)), Set(Some(90)), Set(RoomActive), Set(Some("l@x")));
      var admin := User("u", "admin@x", "h", None, "Admin", None, Admin, UserActive);
      L.NoDoubleBooking([a, b]) && !L.NoDoubleBooking(Update([a, b], admin, "b", u).rooms)
        && UpdateChecked([a, b], admin, "b", u) == L.Outcome([a, b], Err(ConflictDetected))
  {
    var a := LectureRoom("a", "A1", "A", None, 10, None, Some(0), Some(60), Some("l@x"), None, RoomActive);
    var b := LectureRoom("b", "B1", "B", None, 10, None, None, None, Some("l@x"), None, RoomActive);
    var u := L.RoomUpdate(Set("B"), Set(None), Set(10), Set(None), Set(Some(30)), Set(Some(90)), Set(RoomActive), Set(Some("l@x")));
    var admin := User("u", "admin@x", "h", None, "Admin", None, Admin, UserActive);
    FirstIndexUnique([a, b], L.RoomIdIs("b"), Some(1));
    var r := Update([a, b], admin, "b", u).rooms;
    assert L.Clash(r[0], r[1]);
    assert L.ConflictsWith("l@x", 30, 90, Some("b"))(a);
    FirstIndexUnique([a, b], L.ConflictsWith("l@x", 30, 90, Some("b")), Some(0));
  }

  /**
   * `delete_assignment` as written: 403, then 404; then both times are
   * cleared. `room.lecturer_email = None` sets no column, so the row keeps
   * its `email`, and the room itself stays.
   */
  function DeleteAssignment(rooms: seq<LectureRoom>, user: User, roomId: string): (o: L.Outcome<()>)
    ensures user.role != Admin ==> o == L.Outcome(rooms, Err(AdminsOnly))
    ensures user.role == Admin && L.RoomById(rooms, roomId).None? ==> o == L.Outcome(rooms, Err(L.RoomNotFound))
    ensures o.reply.Ok? <==> user.role == Admin && L.RoomById(rooms, roomId).Some?
    ensures |o.rooms| == |rooms|
    ensures o.reply.Ok? ==>
      var i := L.RoomById(rooms, roomId).value;
      o.rooms == rooms[i := rooms[i].(startTime := None, endTime := None)]
  {
    if user.role != Admin then L.Outcome(rooms, Err(AdminsOnly))
    else match L.RoomById(rooms, roomId)
      case None => L.Outcome(rooms, Err(L.RoomNotFound))
      case Some(i) => L.Outcome(rooms[i := rooms[i].(startTime := None, endTime := None)], Ok(()))
  }

  /** Clearing the times keeps lecturers free of double bookings. */
  lemma DeleteAssignmentKeepsNoDoubleBooking(rooms: seq<LectureRoom>, user: User, roomId: string)
    requires L.NoDoubleBooking(rooms)
    ensures L.NoDoubleBooking(DeleteAssignment(rooms, user, roomId).rooms)
  {
    var o := DeleteAssignment(rooms, user, roomId);
    if o.reply.Ok? {
      var i := L.RoomById(rooms, roomId).value;
      L.BookingKeepsNoDoubleBooking(rooms, i, rooms[i].lecturerEmail, None, None);
    }
  }

  /**
   * The assignment cleared as intended: the room's `email` and both times
   * are emptied, and the room itself stays.
   */
  function ClearAssignment(rooms: seq<LectureRoom>, user: User, roomId: string): (o: L.Outcome<()>)
    ensures user.role != Admin ==> o == L.Outcome(rooms, Err(AdminsOnly))
    ensures user.role == Admin && L.RoomById(rooms, roomId).None? ==> o == L.Outcome(rooms, Err(L.RoomNotFound))
    ensures o.reply.Ok? <==> user.role == Admin && L.RoomById(rooms, roomId).Some?
    ensures |o.rooms| == |rooms|
    ensures o.reply.Ok? ==>
      var i := L.RoomById(rooms, roomId).value;
      o.rooms == rooms[i := rooms[i].(lecturerEmail := None, startTime := None, endTime := None)]
  {
    if user.role != Admin then L.Outcome(rooms, Err(AdminsOnly))
    else match L.RoomById(rooms, roomId)
      case None => L.Outcome(rooms, Err(L.RoomNotFound))
      case Some(i) => L.Outcome(rooms[i := rooms[i].(lecturerEmail := None, startTime := None, endTime := None)], Ok(()))
  }

  /**
   * After the handler as written clears a room's assignment, its lecturer
   * still gets the room from `get_my_rooms`; after the intended clearing,
   * no lecturer does.
   */
  lemma DeleteAssignmentKeepsLecturer(rooms: seq<LectureRoom>, admin: User, roomId: string, lecturer: User)
    requires admin.role == Admin && L.RoomById(rooms, roomId).Some?
    requires lecturer.role == Lecturer
    requires rooms[L.RoomById(rooms, roomId).value].lecturerEmail == Some(lecturer.email)
    ensures var i := L.RoomById(rooms, roomId).value;
      var kept := DeleteAssignment(rooms, admin, roomId).rooms;
      var cleared := ClearAssignment(rooms, admin, roomId).rooms;
      kept[i] in MyRooms(kept, lecturer).value && cleared[i] !in MyRooms(cleared, lecturer).value
  {
    var i := L.RoomById(rooms, roomId).value;
    var kept := DeleteAssignment(rooms, admin, roomId).rooms;
    var cleared := ClearAssignment(rooms, admin, roomId).rooms;
    FilterKeeps(kept, L.BookedFor(lecturer.email), kept[i]);
    if cleared[i] in MyRooms(cleared, lecturer).value {
      FilterMember(cleared, L.BookedFor(lecturer.email), cleared[i]);
    }
  }

  /** The intended clearing keeps lecturers free of double bookings too. */
  lemma ClearAssignmentKeepsNoDoubleBooking(rooms: seq<LectureRoom>, user: User, roomId: string)
    requires L.NoDoubleBooking(rooms)
    ensures L.NoDoubleBooking(ClearAssignment(rooms, user, roomId).rooms)
  {
    var o := ClearAssignment(rooms, user, roomId);
    if o.reply.Ok? {
      L.BookingKeepsNoDoubleBooking(rooms, L.RoomById(rooms, roomId).value, None, None, None);
    }
  }

  /** The admin endpoints over the stored rooms table, as written. */
  class LecturerRooms {
    var rooms: seq<LectureRoom>

    constructor(rooms: seq<LectureRoom>)
      ensures this.rooms == rooms
    {
      this.rooms := rooms;
    }

    method AssignRoom(user: User, email: string, start: int, end: int)
      returns (reply: Result<LectureRoom, ApiError>)
      modifies this
      ensures L.Outcome(rooms, reply) == Assign(old(rooms), user, email, start, end)
    {
      if user.role != Admin {
        return Err(AdminsOnly);
      }
      return Err(Unhandled);
    }

    method UpdateRoom(user: User, roomId: string, u: L.RoomUpdate)
      returns (reply: Result<LectureRoom, ApiError>)
      modifies this
      ensures L.Outcome(rooms, reply) == Update(old(rooms), user, roomId, u)
    {
      if user.role != Admin {
        return Err(AdminsOnly);
      }
      var found := FindFirst(rooms, L.RoomIdIs(roomId));
      if found.None? {
        return Err(L.RoomNotFound);
      }
      var i := found.value;
      rooms := rooms[i := L.Apply(rooms[i], u.(lecturerEmail := Unset))];
      reply := Ok(rooms[i]);
    }

    method DeleteRoomAssignment(user: User, roomId: string) returns (reply: Result<(), ApiError>)
      modifies this
      ensures L.Outcome(rooms, reply) == DeleteAssignment(old(rooms), user, roomId)
    {
      if user.role != Admin {
        return Err(AdminsOnly);
      }
      var found := FindFirst(rooms, L.RoomIdIs(roomId));
      if found.None? {
        return Err(L.RoomNotFound);
      }
      var i := found.value;
      rooms := rooms[i := rooms[i].(startTime := None, endTime := None)];
      reply := Ok(());
    }
  }
}
