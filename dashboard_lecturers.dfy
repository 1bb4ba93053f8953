/**
 * The lecturer dashboard of one lecture room
 * (frontend/src/screens/DashboardLecturers/index.tsx): the room lookup, the
 * status badge for a possibly absent live occupancy, and the view toggle.
 */
module DashboardLecturers {
  import opened Wrappers

  datatype Level = Empty | Low | Medium | High

  datatype OccupancyStatus = OccupancyStatus(level: Level, colour: string, background: string)

  /** `liveOccupancy` may be a number, null, or missing (undefined). */
  datatype Live = Number(value: int) | Null | Undefined

  datatype LectureRoom = LectureRoom(id: string, name: string, capacity: int, schedule: string, liveOccupancy: Live)

  /** `liveOccupancy ?? null`: a missing value reads as null. */
  function Percentage(live: Live): (r: Option<int>)
    ensures r.Some? <==> live.Number?
    ensures r.Some? ==> r.value == live.value
  {
    if live.Number? then Some(live.value) else None
  }

  /** `getOccupancyStatus`: Empty for null, then High from 80, Medium from 50, Low below. */
  function StatusOf(percentage: Option<int>): (s: OccupancyStatus)
    ensures s.level == Empty <==> percentage.None?
    ensures s.level == High <==> percentage.Some? && percentage.value >= 80
    ensures s.level == Medium <==> percentage.Some? && 50 <= percentage.value < 80
    ensures s.level == Low <==> percentage.Some? && percentage.value < 50
  {
    if percentage.None? then OccupancyStatus(Empty, "$gray500", "$gray100")
    else if percentage.value >= 80 then OccupancyStatus(High, "$red500", "$red100")
    else if percentage.value >= 50 then OccupancyStatus(Medium, "$amber500", "$amber100")
    else OccupancyStatus(Low, "$green500", "$green100")
  }

  /** A room with no lecture on, or no value at all, shows Empty. */
  lemma NoLiveOccupancyIsEmpty(room: LectureRoom)
    requires !room.liveOccupancy.Number?
    ensures StatusOf(Percentage(room.liveOccupancy)).level == Empty
  {
  }

  datatype Screen = NotFound(message: string) | Dashboard(room: LectureRoom, status: OccupancyStatus)

  function FindRoom(rooms: seq<LectureRoom>, id: string): (r: Option<LectureRoom>)
    ensures r.Some? ==> r.value in rooms && r.value.id == id
    ensures r.None? <==> forall k :: 0 <= k < |rooms| ==> rooms[k].id != id
  {
    if rooms == [] then None
    else if rooms[0].id == id then Some(rooms[0])
    else FindRoom(rooms[1..], id)
  }

  function Render(rooms: seq<LectureRoom>, id: string): (s: Screen)
    ensures s.NotFound? <==> FindRoom(rooms, id).None?
    ensures s.NotFound? ==> s.message == "Location not found"
    ensures s.Dashboard? ==> s.room.id == id && s.status == StatusOf(Percentage(s.room.liveOccupancy))
  {
    var found := FindRoom(rooms, id);
    if found.None? then NotFound("Location not found")
    else Dashboard(found.value, StatusOf(Percentage(found.value.liveOccupancy)))
  }

  datatype View = Statistics | Schedule

  /** The view toggle; it starts on the statistics. */
  class DashboardView {
    var view: View
    var locationId: string

    constructor (id: string)
      ensures view == Statistics && locationId == id
    {
      view := Statistics;
      locationId := id;
    }

    method SetView(v: View)
      modifies this
      ensures view == v && locationId == old(locationId)
    {
      view := v;
    }

    /** Switching rooms shows the statistics again. */
    method LocationChanged(id: string)
      modifies this
      ensures locationId == id
      ensures id != old(locationId) ==> view == Statistics
      ensures id == old(locationId) ==> view == old(view)
    {
      if id != locationId {
        view := Statistics;
      }
      locationId := id;
    }
  }
}
