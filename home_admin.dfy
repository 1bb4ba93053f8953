/**
 * The admin home screen (frontend/src/screens/HomeAdmin/index.tsx): the
 * combined venue list of student spaces and lecture rooms, the summary
 * figures, and the props each venue card receives. Distance computation
 * and formatting are not part of this model and are parameters.
 */
module HomeAdmin {
  import opened Wrappers
  import opened Strings
  import opened JsNumber
  import opened Rounding

  datatype Coords = Coords(latitude: real, longitude: real)

  datatype StudentSpace = StudentSpace(id: string, name: string, position: Coords, occupancy: int, capacity: int, state: string)

  /** A lecture room has no `state` field. */
  datatype LectureRoom = LectureRoom(id: string, name: string, capacity: int, liveOccupancy: Option<int>)

  datatype Kind = StudentSpaceKind | LectureRoomKind

  /** An entry of `combinedLocations`; the occupancy is kept as text. */
  datatype Venue = Venue(id: string, name: string, kind: Kind, distance: string, occupancy: string)

  /** A student space shows its count and the formatted distance from the user to it. */
  function StudentVenue(s: StudentSpace, user: Coords, distance: (Coords, Coords) -> real, format: real -> string): (v: Venue)
    ensures v.id == s.id && v.name == s.name && v.kind == StudentSpaceKind
    ensures v.distance == format(distance(user, s.position)) && v.occupancy == IntToString(s.occupancy)
  {
    Venue(s.id, s.name, StudentSpaceKind, format(distance(user, s.position)), IntToString(s.occupancy))
  }

  /** A lecture room has no distance, and shows "0" when its live occupancy is null or 0. */
  function RoomVenue(r: LectureRoom): (v: Venue)
    ensures v.distance == "-" && v.kind == LectureRoomKind
    ensures r.liveOccupancy.Some? && r.liveOccupancy.value != 0 ==> v.occupancy == IntToString(r.liveOccupancy.value)
    ensures r.liveOccupancy.None? || r.liveOccupancy.value == 0 ==> v.occupancy == "0"
  {
    var occupancy := if r.liveOccupancy.Some? && r.liveOccupancy.value != 0 then IntToString(r.liveOccupancy.value) else "0";
    Venue(r.id, r.name, LectureRoomKind, "-", occupancy)
  }

  /** All student spaces, then all lecture rooms, each in its own order. */
  function Combined(students: seq<StudentSpace>, rooms: seq<LectureRoom>, user: Coords,
                    distance: (Coords, Coords) -> real, format: real -> string): (vs: seq<Venue>)
    ensures |vs| == |students| + |rooms|
    ensures forall k :: 0 <= k < |students| ==> vs[k] == StudentVenue(students[k], user, distance, format)
    ensures forall k :: 0 <= k < |rooms| ==> vs[|students| + k] == RoomVenue(rooms[k])
  {
    seq(|students|, k requires 0 <= k < |students| => StudentVenue(students[k], user, distance, format))
    + seq(|rooms|, k requires 0 <= k < |rooms| => RoomVenue(rooms[k]))
  }

  /** The sum of the lecture room capacities. */
  function TotalCapacity(rooms: seq<LectureRoom>): int {
    if rooms == [] then 0 else TotalCapacity(rooms[..|rooms| - 1]) + rooms[|rooms| - 1].capacity
  }

  /** Summing over two lists of rooms adds their totals. */
  lemma {:induction false} TotalCapacityAppend(a: seq<LectureRoom>, b: seq<LectureRoom>)
    ensures TotalCapacity(a + b) == TotalCapacity(a) + TotalCapacity(b)
    decreases |b|
  {
    if b != [] {
      assert (a + b)[..|a + b| - 1] == a + b[..|b| - 1];
      TotalCapacityAppend(a, b[..|b| - 1]);
    } else {
      assert a + b == a;
    }
  }

  /** With capacities in [0, c], the total lies between 0 and |rooms|·c. */
  lemma {:induction false} TotalCapacityBounds(rooms: seq<LectureRoom>, c: int)
    requires forall k :: 0 <= k < |rooms| ==> 0 <= rooms[k].capacity <= c
    ensures 0 <= TotalCapacity(rooms) <= |rooms| * c
  {
    if rooms != [] {
      TotalCapacityBounds(rooms[..|rooms| - 1], c);
    }
  }

  function OccupancySum(students: seq<StudentSpace>): int {
    if students == [] then 0 else OccupancySum(students[..|students| - 1]) + students[|students| - 1].occupancy
  }

  lemma {:induction false} OccupancySumBounds(students: seq<StudentSpace>, lo: int, hi: int)
    requires forall k :: 0 <= k < |students| ==> lo <= students[k].occupancy <= hi
    ensures |students| * lo <= OccupancySum(students) <= |students| * hi
  {
    if students != [] {
      OccupancySumBounds(students[..|students| - 1], lo, hi);
    }
  }

  /** `Math.round(sum / length) || 0`: the rounded mean, and 0 for no student spaces. */
  function AvgOccupancy(students: seq<StudentSpace>): (avg: Num)
    ensures students == [] ==> avg == Finite(0.0)
    ensures students != [] ==> avg == Finite(RoundHalfUp(OccupancySum(students) as real / |students| as real) as real)
  {
    OrZero(Round(Divide(OccupancySum(students) as real, |students| as real)))
  }

  /** The average lies between the smallest and largest occupancy. */
  lemma AvgBetween(students: seq<StudentSpace>, lo: int, hi: int)
    requires students != []
    requires forall k :: 0 <= k < |students| ==> lo <= students[k].occupancy <= hi
    ensures lo as real <= AvgOccupancy(students).value <= hi as real
  {
    OccupancySumBounds(students, lo, hi);
    MeanBetween(OccupancySum(students), |students|, lo, hi);
    RoundHalfUpBetween(OccupancySum(students) as real / |students| as real, lo, hi);
  }

  lemma MeanBetween(sum: int, n: nat, lo: int, hi: int)
    requires n > 0 && n * lo <= sum <= n * hi
    ensures lo as real <= sum as real / n as real <= hi as real
  {
    var m := sum as real / n as real;
    assert sum as real == m * n as real;
    assert (n * lo) as real == lo as real * n as real;
    assert (n * hi) as real == hi as real * n as real;
  }

  /** The props of one venue card. */
  datatype CardProps = CardProps(name: string, block: string, status: string, current: int, capacity: int)

  datatype Source = Student(s: StudentSpace) | Room(r: LectureRoom)

  function FindStudent(students: seq<StudentSpace>, id: string): (r: Option<StudentSpace>)
    ensures r.Some? ==> r.value in students && r.value.id == id
    ensures r.None? <==> forall k :: 0 <= k < |students| ==> students[k].id != id
  {
    if students == [] then None
    else if students[0].id == id then Some(students[0])
    else FindStudent(students[1..], id)
  }

  function FindRoom(rooms: seq<LectureRoom>, id: string): (r: Option<LectureRoom>)
    ensures r.Some? ==> r.value in rooms && r.value.id == id
    ensures r.None? <==> forall k :: 0 <= k < |rooms| ==> rooms[k].id != id
  {
    if rooms == [] then None
    else if rooms[0].id == id then Some(rooms[0])
    else FindRoom(rooms[1..], id)
  }

  /** `studentData || lecturerData`: a student space with the id wins over a room. */
  function SourceOf(students: seq<StudentSpace>, rooms: seq<LectureRoom>, id: string): (r: Option<Source>)
    ensures r.None? <==> FindStudent(students, id).None? && FindRoom(rooms, id).None?
    ensures FindStudent(students, id).Some? ==> r == Some(Student(FindStudent(students, id).value))
    ensures r.Some? && r.value.Room? ==> r.value.r in rooms && r.value.r.id == id
  {
    var s := FindStudent(students, id);
    if s.Some? then Some(Student(s.value))
    else
      var r := FindRoom(rooms, id);
      if r.Some? then Some(Room(r.value)) else None
  }

  /** `parseInt(occupancy) || 0`. */
  function Current(occupancy: string): (n: int)
    ensures ParseInt(occupancy).Some? ==> n == ParseInt(occupancy).value
    ensures ParseInt(occupancy).None? ==> n == 0
  {
    var p := ParseInt(occupancy);
    if p.Some? && p.value != 0 then p.value else 0
  }

  /**
   * The card for a venue: nothing when neither list has its id; otherwise
   * the status defaults to 'active', the current count is parsed from the
   * occupancy text, and the capacity comes from the source record.
   */
  function Card(v: Venue, students: seq<StudentSpace>, rooms: seq<LectureRoom>): (c: Option<CardProps>)
    ensures c.None? <==> SourceOf(students, rooms, v.id).None?
    ensures c.Some? ==> c.value.name == v.name && c.value.current == Current(v.occupancy)
    ensures c.Some? ==> (c.value.block == "Student Study Area" <==> v.kind == StudentSpaceKind)
    ensures c.Some? && SourceOf(students, rooms, v.id).value.Student? ==>
      var s := SourceOf(students, rooms, v.id).value.s;
      c.value.status == (if s.state != "" then s.state else "active") && c.value.capacity == s.capacity
    ensures c.Some? && SourceOf(students, rooms, v.id).value.Room? ==>
      c.value.status == "active" && c.value.capacity == SourceOf(students, rooms, v.id).value.r.capacity
  {
    match SourceOf(students, rooms, v.id)
    case None => None
    case Some(src) =>
      var status := if src.Student? && src.s.state != "" then src.s.state else "active";
      var capacity := if src.Student? then src.s.capacity else src.r.capacity;
      var block := if v.kind == StudentSpaceKind then "Student Study Area" else "Academic Building";
      Some(CardProps(v.name, block, status, Current(v.occupancy), capacity))
  }

  /**
   * The card shows the number the venue list wrote: a student space's
   * occupancy, and a lecture room's live occupancy or 0.
   */
  lemma CardCurrentRoundTrip(s: StudentSpace, r: LectureRoom, user: Coords,
                             distance: (Coords, Coords) -> real, format: real -> string)
    ensures Current(StudentVenue(s, user, distance, format).occupancy) == s.occupancy
    ensures Current(RoomVenue(r).occupancy) == (if r.liveOccupancy.Some? then r.liveOccupancy.value else 0)
  {
    ParseIntToString(s.occupancy);
    ParseIntToString(0);
    if r.liveOccupancy.Some? {
      ParseIntToString(r.liveOccupancy.value);
    }
  }

  /** A lecture room's card always says 'active', unless a student space shares its id. */
  lemma RoomCardIsActive(r: LectureRoom, students: seq<StudentSpace>, rooms: seq<LectureRoom>)
    requires r in rooms && FindStudent(students, r.id).None?
    requires Card(RoomVenue(r), students, rooms).Some?
    ensures Card(RoomVenue(r), students, rooms).value.status == "active"
  {
  }

  /** The screen state that the position effect rebuilds. */
  class HomeAdminScreen {
    var venues: seq<Venue>
    var loading: bool
    var userLocation: Option<Coords>

    constructor ()
      ensures venues == [] && loading && userLocation.None?
    {
      venues := [];
      loading := true;
      userLocation := None;
    }

    /**
     * `getUserLocation` followed by the effect on the position: a refusal
     * or failure keeps the list, a position rebuilds it; loading always ends.
     */
    method GetUserLocation(position: Option<Coords>, students: seq<StudentSpace>, rooms: seq<LectureRoom>,
                           distance: (Coords, Coords) -> real, format: real -> string)
      modifies this
      ensures !loading
      ensures position.None? ==> venues == old(venues) && userLocation == old(userLocation)
      ensures position.Some? ==>
        userLocation == position && venues == Combined(students, rooms, position.value, distance, format)
    {
      if position.Some? {
        userLocation := position;
        venues := Combined(students, rooms, position.value, distance, format);
      }
      loading := false;
    }
  }
}
