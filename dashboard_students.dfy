/**
 * The student dashboard of one location
 * (frontend/src/screens/DashboardStudents/index.tsx): the location lookup,
 * the occupancy status, the pie, weekly and line chart data, and the view
 * toggle that resets when the location changes.
 */
module DashboardStudents {
  import opened Wrappers
  import opened JsNumber

  /** `averageOccupancy`, one value per weekday in the order the record lists them. */
  datatype WeekAverages = WeekAverages(monday: int, tuesday: int, wednesday: int, thursday: int, friday: int, saturday: int)

  datatype Point = Point(time: string, value: int)

  datatype StudentLocation = StudentLocation(
    id: string, name: string, occupancy: int, capacity: int,
    averageOccupancy: WeekAverages, lineChartData: Option<seq<Point>>)

  datatype Level = Low | Medium | High

  /** The label and the two colours of the status badge. */
  datatype OccupancyStatus = OccupancyStatus(level: Level, colour: string, background: string)

  datatype Slice = Slice(name: string, population: Num, colour: string)

  datatype BarChart = BarChart(labels: seq<string>, data: seq<int>)

  datatype LineChart = LineChart(labels: seq<string>, data: seq<int>)

  datatype Screen =
    | NotFound(message: string)
    | Dashboard(location: StudentLocation, status: OccupancyStatus, pie: seq<Slice>, weekly: BarChart, line: LineChart)

  /** `locations.find(loc => loc.id === id)`: the first location with that id. */
  function FindLocation(locations: seq<StudentLocation>, id: string): (r: Option<StudentLocation>)
    ensures r.Some? ==> r.value in locations && r.value.id == id
    ensures r.None? <==> forall k :: 0 <= k < |locations| ==> locations[k].id != id
  {
    if locations == [] then None
    else if locations[0].id == id then Some(locations[0])
    else FindLocation(locations[1..], id)
  }

  /** `getOccupancyStatus`: High from 80 percent, Medium from 50, Low below. */
  function StatusOf(percentage: Num): (s: OccupancyStatus)
    ensures s.level == High <==> AtLeast(percentage, 80.0)
    ensures s.level == Medium <==> !AtLeast(percentage, 80.0) && AtLeast(percentage, 50.0)
    ensures s.level == Low <==> !AtLeast(percentage, 50.0)
  {
    if AtLeast(percentage, 80.0) then OccupancyStatus(High, "$red500", "$red100")
    else if AtLeast(percentage, 50.0) then OccupancyStatus(Medium, "$amber500", "$amber100")
    else OccupancyStatus(Low, "$green500", "$green100")
  }

  /** `occupancy / capacity * 100`. */
  function OccupancyPercentage(loc: StudentLocation): (p: Num)
    ensures loc.capacity != 0 ==> p == Finite(loc.occupancy as real / loc.capacity as real * 100.0)
  {
    Times(Divide(loc.occupancy as real, loc.capacity as real), 100.0)
  }

  /** The pie: the occupied share, then the rest of 100 as available. */
  function Pie(percentage: Num): (pie: seq<Slice>)
    ensures |pie| == 2 && pie[0].name == "Occupied" && pie[1].name == "Available"
    ensures pie[0].population == percentage
    ensures percentage.Finite? ==>
      pie[1].population.Finite? && pie[0].population.value + pie[1].population.value == 100.0
  {
    [Slice("Occupied", percentage, "#ef4444"), Slice("Available", Minus(100.0, percentage), "#10b981")]
  }

  /** Six weekday labels with `Object.values(averageOccupancy)` in record order. */
  function Weekly(a: WeekAverages): (chart: BarChart)
    ensures chart.labels == ["Mon", "Tue", "Wed", "Thu", "Fri", "Sat"]
    ensures |chart.data| == 6 && chart.data[0] == a.monday && chart.data[5] == a.saturday
    ensures chart.data[1] == a.tuesday && chart.data[2] == a.wednesday
    ensures chart.data[3] == a.thursday && chart.data[4] == a.friday
  {
    BarChart(["Mon", "Tue", "Wed", "Thu", "Fri", "Sat"],
      [a.monday, a.tuesday, a.wednesday, a.thursday, a.friday, a.saturday])
  }

  /**
   * The line chart mirrors `lineChartData`; without it there are no labels
   * and the data is `[0]`. A present but empty list is truthy and stays empty.
   */
  function Line(points: Option<seq<Point>>): (chart: LineChart)
    ensures points.None? ==> chart == LineChart([], [0])
    ensures points.Some? ==> |chart.labels| == |chart.data| == |points.value|
    ensures points.Some? ==> forall k :: 0 <= k < |points.value| ==>
      chart.labels[k] == points.value[k].time && chart.data[k] == points.value[k].value
  {
    if points.None? then LineChart([], [0])
    else LineChart(seq(|points.value|, k requires 0 <= k < |points.value| => points.value[k].time),
                   seq(|points.value|, k requires 0 <= k < |points.value| => points.value[k].value))
  }

  /** The whole screen for the location id in the route. */
  function Render(locations: seq<StudentLocation>, id: string): (s: Screen)
    ensures s.NotFound? <==> FindLocation(locations, id).None?
    ensures s.NotFound? ==> s.message == "Location not found"
    ensures s.Dashboard? ==>
      s.location.id == id && s.location in locations && s.status == StatusOf(OccupancyPercentage(s.location))
    ensures s.Dashboard? ==> s.pie == Pie(OccupancyPercentage(s.location))
  {
    var found := FindLocation(locations, id);
    if found.None? then NotFound("Location not found")
    else
      var loc := found.value;
      var p := OccupancyPercentage(loc);
      Dashboard(loc, StatusOf(p), Pie(p), Weekly(loc.averageOccupancy), Line(loc.lineChartData))
  }

  datatype View = SeatMap | Statistics

  /** The view toggle of the screen; it starts on the seat map. */
  class DashboardView {
    var view: View
    var locationId: string

    constructor (id: string)
      ensures view == SeatMap && locationId == id
    {
      view := SeatMap;
      locationId := id;
    }

    method SetView(v: View)
      modifies this
      ensures view == v && locationId == old(locationId)
    {
      view := v;
    }

    /** The effect on the location id: switching locations shows the seat map again. */
    method LocationChanged(id: string)
      modifies this
      ensures locationId == id
      ensures id != old(locationId) ==> view == SeatMap
      ensures id == old(locationId) ==> view == old(view)
    {
      if id != locationId {
        view := SeatMap;
      }
      locationId := id;
    }
  }
}
