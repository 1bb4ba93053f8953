/**
 * The student home screen (frontend/src/screens/HomeStudents/index.tsx):
 * backend locations mapped to cards, and the load sequence that first asks
 * for the device position and then fetches the locations. Distance
 * computation and formatting (`calculateDistance`, `formatDistance`) are
 * not part of this model and are parameters.
 */
module HomeStudents {
  import opened Wrappers

  datatype Coords = Coords(latitude: real, longitude: real)

  /** The fields of a backend location the screen reads; `has_wifi` may be absent. */
  datatype LocationResponse = LocationResponse(
    id: string, name: string, imageUrl: Option<string>, status: string,
    availableSeats: int, totalCapacity: int,
    latitude: Option<real>, longitude: Option<real>,
    hasPowerOutlet: bool, hasAc: bool, hasWifi: Option<bool>)

  datatype Feature = Power | Cool | Wifi

  datatype Card = Card(
    id: string, name: string, imageUrl: Option<string>, distance: string, status: string,
    availableSeats: int, totalCapacity: int, accessibility: seq<Feature>)

  /** The features of a location, one per true flag, in the order power, cool, wifi. */
  function Accessibility(loc: LocationResponse): (fs: seq<Feature>)
    ensures Power in fs <==> loc.hasPowerOutlet
    ensures Cool in fs <==> loc.hasAc
    ensures Wifi in fs <==> loc.hasWifi == Some(true)
    ensures forall i, j :: 0 <= i < j < |fs| ==> Rank(fs[i]) < Rank(fs[j])
  {
    (if loc.hasPowerOutlet then [Power] else [])
    + (if loc.hasAc then [Cool] else [])
    + (if loc.hasWifi == Some(true) then [Wifi] else [])
  }

  function Rank(f: Feature): nat {
    match f
    case Power => 0
    case Cool => 1
    case Wifi => 2
  }

  /** The position of a location, a missing latitude or longitude read as 0. */
  function Position(loc: LocationResponse): Coords {
    Coords(if loc.latitude.Some? then loc.latitude.value else 0.0,
           if loc.longitude.Some? then loc.longitude.value else 0.0)
  }

  /** One card for a location, seen from the user's position if there is one. */
  function CardOf(loc: LocationResponse, user: Option<Coords>,
                  distance: (Coords, Coords) -> real, format: real -> string): (c: Card)
    ensures c.id == loc.id && c.name == loc.name && c.imageUrl == loc.imageUrl && c.status == loc.status
    ensures c.availableSeats == loc.availableSeats && c.totalCapacity == loc.totalCapacity
    ensures user.None? ==> c.distance == "Unknown"
    ensures user.Some? ==> c.distance == format(distance(user.value, Position(loc)))
    ensures c.accessibility == Accessibility(loc)
  {
    Card(loc.id, loc.name, loc.imageUrl,
         if user.Some? then format(distance(user.value, Position(loc))) else "Unknown",
         loc.status, loc.availableSeats, loc.totalCapacity, Accessibility(loc))
  }

  /** `mapLocations`: one card per location, in the same order. */
  function MapLocations(locs: seq<LocationResponse>, user: Option<Coords>,
                        distance: (Coords, Coords) -> real, format: real -> string): (cards: seq<Card>)
    ensures |cards| == |locs|
    ensures forall k :: 0 <= k < |locs| ==> cards[k] == CardOf(locs[k], user, distance, format)
  {
    seq(|locs|, k requires 0 <= k < |locs| => CardOf(locs[k], user, distance, format))
  }

  /** What the permission request and position lookup produce. */
  datatype PositionOutcome = Denied | Granted(position: Coords) | Failed

  /** The screen state. */
  datatype Home = Home(locations: seq<Card>, loading: bool, userLocation: Option<Coords>)

  function Initial(): Home {
    Home([], true, None)
  }

  /** `getUserLocation`: a refusal stops the spinner, a position is stored, a failure only alerts. */
  function WithUserLocation(h: Home, outcome: PositionOutcome): (r: Home)
    ensures r.locations == h.locations
    ensures outcome.Granted? ==> r.userLocation == Some(outcome.position) && r.loading == h.loading
    ensures outcome.Denied? ==> r.userLocation == h.userLocation && !r.loading
    ensures outcome.Failed? ==> r == h
  {
    match outcome
    case Denied => h.(loading := false)
    case Granted(p) => h.(userLocation := Some(p))
    case Failed => h
  }

  /**
   * `fetchLocations`: the list is replaced only on an ok result and the
   * spinner always stops. `seen` is the user position the handler reads.
   */
  function WithFetched(h: Home, seen: Option<Coords>, result: Option<seq<LocationResponse>>,
                          distance: (Coords, Coords) -> real, format: real -> string): (r: Home)
    ensures !r.loading && r.userLocation == h.userLocation
    ensures result.Some? ==> r.locations == MapLocations(result.value, seen, distance, format)
    ensures result.None? ==> r.locations == h.locations
  {
    Home(if result.Some? then MapLocations(result.value, seen, distance, format) else h.locations,
         false, h.userLocation)
  }

  /**
   * The mount effect and pull-to-refresh as written: both handlers are the
   * ones of the render that started the sequence, so the fetch maps the
   * locations with the user position of that render, not the one just found.
   */
  function LoadedAsWritten(h: Home, outcome: PositionOutcome, result: Option<seq<LocationResponse>>,
                         distance: (Coords, Coords) -> real, format: real -> string): (r: Home)
    ensures !r.loading
    ensures result.Some? ==> r.locations == MapLocations(result.value, h.userLocation, distance, format)
  {
    WithFetched(WithUserLocation(h, outcome), h.userLocation, result, distance, format)
  }

  /** The load sequence with the position it has just obtained. */
  function Loaded(h: Home, outcome: PositionOutcome, result: Option<seq<LocationResponse>>,
                distance: (Coords, Coords) -> real, format: real -> string): (r: Home)
    ensures !r.loading
    ensures result.Some? ==> |r.locations| == |result.value|
    ensures outcome.Granted? && result.Some? ==> forall k :: 0 <= k < |result.value| ==>
      r.locations[k].distance == format(distance(outcome.position, Position(result.value[k])))
  {
    var found := WithUserLocation(h, outcome);
    WithFetched(found, found.userLocation, result, distance, format)
  }

  /**
   * On the first load the position is granted, yet every card says
   * "Unknown"; the intended sequence shows the computed distance.
   */
  lemma FirstLoadShowsNoDistance(p: Coords, locs: seq<LocationResponse>,
                                 distance: (Coords, Coords) -> real, format: real -> string)
    ensures var r := LoadedAsWritten(Initial(), Granted(p), Some(locs), distance, format);
      |r.locations| == |locs| && r.userLocation == Some(p)
      && forall k :: 0 <= k < |locs| ==> r.locations[k].distance == "Unknown"
    ensures var r := Loaded(Initial(), Granted(p), Some(locs), distance, format);
      forall k :: 0 <= k < |locs| ==> r.locations[k].distance == format(distance(p, Position(locs[k])))
  {
  }

  /** The screen as an object whose handlers update its state. */
  class HomeStudentsScreen {
    var locations: seq<Card>
    var loading: bool
    var userLocation: Option<Coords>

    ghost function State(): Home
      reads this
    {
      Home(locations, loading, userLocation)
    }

    constructor ()
      ensures State() == Initial()
    {
      locations := [];
      loading := true;
      userLocation := None;
    }

    method GetUserLocation(outcome: PositionOutcome)
      modifies this
      ensures State() == WithUserLocation(old(State()), outcome)
    {
      match outcome {
        case Denied => loading := false;
        case Granted(p) => userLocation := Some(p);
        case Failed =>
      }
    }

    method FetchLocations(result: Option<seq<LocationResponse>>,
                          distance: (Coords, Coords) -> real, format: real -> string)
      modifies this
      ensures State() == WithFetched(old(State()), old(userLocation), result, distance, format)
    {
      if result.Some? {
        locations := MapLocations(result.value, userLocation, distance, format);
      }
      loading := false;
    }

    /** Asks for the position, then fetches with the position just obtained. */
    method Load(outcome: PositionOutcome, result: Option<seq<LocationResponse>>,
                distance: (Coords, Coords) -> real, format: real -> string)
      modifies this
      ensures State() == Loaded(old(State()), outcome, result, distance, format)
    {
      GetUserLocation(outcome);
      FetchLocations(result, distance, format);
    }
  }
}
