/**
 * The backend's tables as in-memory rows (backend/app/models/seat.py,
 * floor.py, location.py, user.py, reservation.py, occupancy_history.py),
 * the HTTP errors its handlers raise, and the one query shape every
 * handler uses: `.filter(...).first()`, the first row in table order that
 * matches a condition.
 */
module Store {
  import opened Wrappers
  import Models

  datatype SeatStatus = Available | Occupied | Reserved | Maintenance | Blocked
  datatype SeatType = Individual | Group | Quiet | Computer | StudyPod

  /** `SeatStatus.value`: the lower-case name stored in the database. */
  function StatusValue(st: SeatStatus): (v: string)
    ensures |v| >= 6
  {
    match st
    case Available => "available"
    case Occupied => "occupied"
    case Reserved => "reserved"
    case Maintenance => "maintenance"
    case Blocked => "blocked"
  }

  /** A row of `seats`; the coordinates are the stored fractions in [0, 1]. */
  datatype Seat = Seat(
    id: string, floorId: string, seatNumber: string, seatType: SeatType,
    hasPowerOutlet: bool, hasWifi: bool, hasAc: bool, accessibility: bool,
    capacity: int, x: real, y: real, status: SeatStatus)

  /** A row of `floors`. */
  datatype Floor = Floor(
    id: string, locationId: string, floorNumber: int, floorName: Option<string>,
    floorMapUrl: Option<string>, totalSeats: int, occupiedSeats: int)

  /** A row of `locations`. */
  datatype Location = Location(id: string, name: string, totalCapacity: int, currentOccupancy: int)

  datatype UserRole = Student | Lecturer | Admin | Guest
  datatype UserStatus = UserActive | Suspended | Inactive

  /** A row of `users`: only the password hash is stored. */
  datatype User = User(
    id: string, email: string, hashedPassword: string, studentId: Option<string>,
    name: string, phoneNumber: Option<string>, role: UserRole, status: UserStatus)

  /** A row of `reservations`; times are whole seconds. */
  datatype Reservation = Reservation(
    id: string, userId: string, seatId: string, startTime: int, endTime: int,
    checkInTime: Option<int>, status: Models.ReservationStatus, createdAt: int)

  /** A row of `occupancy_history` (`day_of_week` 0 is Monday). */
  datatype HistoryRecord = HistoryRecord(
    id: string, locationId: string, floorId: Option<string>, timestamp: int,
    occupancyCount: int, totalCapacity: int, dayOfWeek: int, hourOfDay: int)

  datatype RoomState = RoomActive | RoomMaintenance

  /**
   * A row of `lecturer_locations`: a teaching room and the one booking it
   * holds, a lecturer's email with a start and an end time. The field
   * `lecturerEmail` is the table's `email` column. The table has no `code`
   * column; `code` is the field the request and response schemas carry.
   */
  datatype LectureRoom = LectureRoom(
    id: string, code: string, name: string, imageUrl: Option<string>, capacity: int,
    subject: Option<string>, startTime: Option<int>, endTime: Option<int>,
    lecturerEmail: Option<string>, liveOccupancy: Option<int>, state: RoomState)

  /** A field of a partial update: left out of the request, or given a value. */
  datatype Field<T> = Unset | Set(value: T)

  /** `updated_data.get(key, current)`. */
  function Merge<T>(f: Field<T>, current: T): (r: T)
    ensures f.Unset? ==> r == current
    ensures f.Set? ==> r == f.value
  {
    if f.Set? then f.value else current
  }

  /** An `HTTPException`: a status code and its detail text. */
  datatype ApiError = ApiError(status: int, detail: string)

  const BadRequest: int := 400
  const Unauthorized: int := 401
  const Forbidden: int := 403
  const NotFound: int := 404
  const ServerError: int := 500

  /** What FastAPI answers when a handler raises anything but an `HTTPException`. */
  const Unhandled := ApiError(ServerError, "Internal Server Error")

  /** The index of the first row satisfying `p`, if any. */
  function FirstIndex<T>(s: seq<T>, p: T -> bool): (r: Option<nat>)
    ensures r.Some? ==> r.value < |s| && p(s[r.value])
    ensures r.Some? ==> forall k :: 0 <= k < r.value ==> !p(s[k])
    ensures r.None? <==> forall k :: 0 <= k < |s| ==> !p(s[k])
  {
    FirstIndexFrom(s, p, 0)
  }

  function FirstIndexFrom<T>(s: seq<T>, p: T -> bool, i: nat): (r: Option<nat>)
    requires i <= |s|
    requires forall k :: 0 <= k < i ==> !p(s[k])
    ensures r.Some? ==> i <= r.value < |s| && p(s[r.value])
    ensures r.Some? ==> forall k :: 0 <= k < r.value ==> !p(s[k])
    ensures r.None? <==> forall k :: 0 <= k < |s| ==> !p(s[k])
    decreases |s| - i
  {
    if i == |s| then None
    else if p(s[i]) then Some(i)
    else FirstIndexFrom(s, p, i + 1)
  }

  /** The table scan behind `.first()`: stops at the first match. */
  method FindFirst<T>(s: seq<T>, p: T -> bool) returns (r: Option<nat>)
    ensures r == FirstIndex(s, p)
  {
    var i := 0;
    while i < |s|
      invariant 0 <= i <= |s|
      invariant forall k :: 0 <= k < i ==> !p(s[k])
    {
      if p(s[i]) {
        FirstIndexUnique(s, p, Some(i));
        return Some(i);
      }
      i := i + 1;
    }
    FirstIndexUnique(s, p, None);
    r := None;
  }

  /** The first match is determined by where `p` holds. */
  lemma FirstIndexUnique<T>(s: seq<T>, p: T -> bool, r: Option<nat>)
    requires r.Some? ==> r.value < |s| && p(s[r.value])
    requires r.Some? ==> forall k :: 0 <= k < r.value ==> !p(s[k])
    requires r.None? ==> forall k :: 0 <= k < |s| ==> !p(s[k])
    ensures r == FirstIndex(s, p)
  {
  }

  /** Appending rows keeps the first match of the old rows. */
  lemma FirstIndexAppend<T>(s: seq<T>, t: seq<T>, p: T -> bool)
    ensures FirstIndex(s, p).Some? ==> FirstIndex(s + t, p) == FirstIndex(s, p)
    ensures FirstIndex(s, p).None? && FirstIndex(t, p).Some? ==>
      FirstIndex(s + t, p) == Some(|s| + FirstIndex(t, p).value)
    ensures FirstIndex(s, p).None? && FirstIndex(t, p).None? ==> FirstIndex(s + t, p).None?
  {
    var st := s + t;
    var a, b := FirstIndex(s, p), FirstIndex(t, p);
    if a.Some? {
      assert st[a.value] == s[a.value];
      FirstIndexUnique(st, p, a);
    } else if b.Some? {
      var r := Some(|s| + b.value);
      assert st[r.value] == t[b.value];
      forall k | 0 <= k < r.value ensures !p(st[k]) {
        if k < |s| { assert st[k] == s[k]; } else { assert st[k] == t[k - |s|]; }
      }
      FirstIndexUnique(st, p, r);
    } else {
      forall k | 0 <= k < |st| ensures !p(st[k]) {
        if k < |s| { assert st[k] == s[k]; } else { assert st[k] == t[k - |s|]; }
      }
    }
  }

  /** Replacing a row by one that matches the same way keeps the first match. */
  lemma FirstIndexUpdate<T>(s: seq<T>, i: nat, v: T, p: T -> bool)
    requires i < |s| && p(v) == p(s[i])
    ensures FirstIndex(s[i := v], p) == FirstIndex(s, p)
  {
    var r := FirstIndex(s, p);
    var u := s[i := v];
    forall k | 0 <= k < |u| ensures p(u[k]) == p(s[k]) {
    }
    FirstIndexUnique(u, p, r);
  }

  /** The query condition `Seat.id == seat_id`. */
  function SeatIdIs(seatId: string): Seat -> bool {
    (s: Seat) => s.id == seatId
  }

  /** The seat with that id. */
  function SeatById(seats: seq<Seat>, seatId: string): (r: Option<nat>)
    ensures r.Some? ==> r.value < |seats| && seats[r.value].id == seatId
    ensures r.Some? ==> forall k :: 0 <= k < r.value ==> seats[k].id != seatId
    ensures r.None? <==> forall k :: 0 <= k < |seats| ==> seats[k].id != seatId
  {
    FirstIndex(seats, SeatIdIs(seatId))
  }

  /** The same seat row with a new status. */
  function WithStatus(seats: seq<Seat>, i: nat, status: SeatStatus): (r: seq<Seat>)
    requires i < |seats|
    ensures |r| == |seats| && r[i].status == status
    ensures forall k :: 0 <= k < |seats| && k != i ==> r[k] == seats[k]
    ensures r[i] == seats[i].(status := status)
  {
    seats[i := seats[i].(status := status)]
  }

  /** Changing a status keeps every seat's id, so every later id lookup. */
  lemma WithStatusKeepsLookup(seats: seq<Seat>, i: nat, status: SeatStatus, seatId: string)
    requires i < |seats|
    ensures SeatById(WithStatus(seats, i, status), seatId) == SeatById(seats, seatId)
  {
    FirstIndexUpdate(seats, i, seats[i].(status := status), SeatIdIs(seatId));
  }

  /** The query condition `Floor.id == floor_id`. */
  function FloorIdIs(floorId: string): Floor -> bool {
    (f: Floor) => f.id == floorId
  }

  /** The floor with that id. */
  function FloorById(floors: seq<Floor>, floorId: string): (r: Option<nat>)
    ensures r.Some? ==> r.value < |floors| && floors[r.value].id == floorId
    ensures r.None? <==> forall k :: 0 <= k < |floors| ==> floors[k].id != floorId
  {
    FirstIndex(floors, FloorIdIs(floorId))
  }

  /** The query condition `Location.id == location_id`. */
  function LocationIdIs(locationId: string): Location -> bool {
    (l: Location) => l.id == locationId
  }

  /** The location with that id. */
  function LocationById(locations: seq<Location>, locationId: string): (r: Option<nat>)
    ensures r.Some? ==> r.value < |locations| && locations[r.value].id == locationId
    ensures r.None? <==> forall k :: 0 <= k < |locations| ==> locations[k].id != locationId
  {
    FirstIndex(locations, LocationIdIs(locationId))
  }
}
