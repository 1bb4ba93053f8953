/**
 * Location listing (backend/app/api/locations.py): each location with two
 * flags aggregated over the available seats of its floors.
 */
module Locations {
  import opened Wrappers
  import opened Sorting
  import opened Store

  const LocationNotFound := ApiError(NotFound, "Location not found")

  /** A `LocationResponse`: the stored row and the two aggregated flags. */
  datatype LocationView = LocationView(location: Location, hasPowerOutlet: bool, hasAc: bool)

  function OnLocation(locationId: string): Floor -> bool {
    (f: Floor) => f.locationId == locationId
  }

  function AvailableOnFloor(floorId: string): Seat -> bool {
    (s: Seat) => s.floorId == floorId && s.status == Available
  }

  /** `[seat for floor in floors for seat in floor.seats if AVAILABLE]`. */
  function AvailableSeatsOf(floors: seq<Floor>, seats: seq<Seat>): (r: seq<Seat>)
    ensures forall s :: s in r <==>
      s in seats && s.status == Available && exists f :: f in floors && f.id == s.floorId
  {
    if floors == [] then []
    else
      var here := Filter(seats, AvailableOnFloor(floors[0].id));
      var rest := AvailableSeatsOf(floors[1..], seats);
      forall s | s in here
        ensures s in seats && AvailableOnFloor(floors[0].id)(s)
      {
        FilterMember(seats, AvailableOnFloor(floors[0].id), s);
      }
      forall s | s in seats && AvailableOnFloor(floors[0].id)(s)
        ensures s in here
      {
        FilterKeeps(seats, AvailableOnFloor(floors[0].id), s);
      }
      forall s: Seat
        ensures (exists f :: f in floors && f.id == s.floorId) <==>
          (s.floorId == floors[0].id || exists f :: f in floors[1..] && f.id == s.floorId)
      {
        if exists f :: f in floors && f.id == s.floorId {
          var f :| f in floors && f.id == s.floorId;
          if f != floors[0] {
            assert f in floors[1..];
          }
        }
        if exists f :: f in floors[1..] && f.id == s.floorId {
          var f :| f in floors[1..] && f.id == s.floorId;
          assert f in floors;
        }
      }
      here + rest
  }

  function HasOutlet(): Seat -> bool {
    (s: Seat) => s.hasPowerOutlet
  }

  function HasAc(): Seat -> bool {
    (s: Seat) => s.hasAc
  }

  /** The response for one location: the flags over the available seats of its floors. */
  function ViewOf(l: Location, floors: seq<Floor>, seats: seq<Seat>): LocationView {
    var available := AvailableSeatsOf(Filter(floors, OnLocation(l.id)), seats);
    LocationView(l, Any(available, HasOutlet()), Any(available, HasAc()))
  }

  /** A seat on one of the location's floors, and available. */
  ghost predicate AvailableAt(s: Seat, l: Location, floors: seq<Floor>, seats: seq<Seat>) {
    s in seats && s.status == Available
    && exists f :: f in floors && f.locationId == l.id && f.id == s.floorId
  }

  /** The seats the flags are aggregated over are exactly the available seats on the location's floors. */
  lemma AvailableOfLocation(l: Location, floors: seq<Floor>, seats: seq<Seat>)
    ensures forall s :: s in AvailableSeatsOf(Filter(floors, OnLocation(l.id)), seats) <==>
      AvailableAt(s, l, floors, seats)
  {
    var mine := Filter(floors, OnLocation(l.id));
    forall f: Floor
      ensures f in mine <==> f in floors && f.locationId == l.id
    {
      if f in mine {
        FilterMember(floors, OnLocation(l.id), f);
      }
      if f in floors && f.locationId == l.id {
        FilterKeeps(floors, OnLocation(l.id), f);
      }
    }
  }

  /** A flag aggregated with `any` holds exactly when some seat it ranges over has the feature. */
  lemma AnyFlag(l: Location, floors: seq<Floor>, seats: seq<Seat>, feature: Seat -> bool)
    ensures Any(AvailableSeatsOf(Filter(floors, OnLocation(l.id)), seats), feature) <==>
      exists s :: AvailableAt(s, l, floors, seats) && feature(s)
  {
    AvailableOfLocation(l, floors, seats);
    AnyOverAvailable(AvailableSeatsOf(Filter(floors, OnLocation(l.id)), seats), l, floors, seats, feature);
  }

  lemma AnyOverAvailable(available: seq<Seat>, l: Location, floors: seq<Floor>, seats: seq<Seat>, feature: Seat -> bool)
    requires forall s :: s in available <==> AvailableAt(s, l, floors, seats)
    ensures Any(available, feature) <==> exists s :: AvailableAt(s, l, floors, seats) && feature(s)
  {
    if Any(available, feature) {
      var i :| 0 <= i < |available| && feature(available[i]);
      assert available[i] in available;
    }
    if exists s :: AvailableAt(s, l, floors, seats) && feature(s) {
      var s :| AvailableAt(s, l, floors, seats) && feature(s);
      var i :| 0 <= i < |available| && available[i] == s;
    }
  }

  /**
   * `has_power_outlet` holds exactly when some available seat on some
   * floor of the location has an outlet, and `has_ac` likewise; seats that
   * are not available never count.
   */
  lemma ViewFlags(l: Location, floors: seq<Floor>, seats: seq<Seat>)
    ensures ViewOf(l, floors, seats).hasPowerOutlet <==>
      exists s :: AvailableAt(s, l, floors, seats) && s.hasPowerOutlet
    ensures ViewOf(l, floors, seats).hasAc <==>
      exists s :: AvailableAt(s, l, floors, seats) && s.hasAc
  {
    AnyFlag(l, floors, seats, HasOutlet());
    AnyFlag(l, floors, seats, HasAc());
  }

  /** With no available seat on its floors, a location gets neither flag. */
  lemma NoAvailableSeatNoFlags(l: Location, floors: seq<Floor>, seats: seq<Seat>)
    requires forall s :: s in seats && s.status == Available ==>
      forall f :: f in floors && f.id == s.floorId ==> f.locationId != l.id
    ensures !ViewOf(l, floors, seats).hasPowerOutlet && !ViewOf(l, floors, seats).hasAc
  {
    ViewFlags(l, floors, seats);
  }

  /** `get_locations`: every location, in table order, with its flags. */
  function GetLocations(locations: seq<Location>, floors: seq<Floor>, seats: seq<Seat>): (r: seq<LocationView>)
    ensures |r| == |locations|
    ensures forall i :: 0 <= i < |r| ==> r[i] == ViewOf(locations[i], floors, seats)
  {
    seq(|locations|, i requires 0 <= i < |locations| => ViewOf(locations[i], floors, seats))
  }

  /** `get_location`: the location with that id and its flags, or 404. */
  function GetLocation(locations: seq<Location>, floors: seq<Floor>, seats: seq<Seat>, locationId: string)
    : (r: Result<LocationView, ApiError>)
    ensures r.Ok? <==> exists k :: 0 <= k < |locations| && locations[k].id == locationId
    ensures r.Ok? ==>
      r.value.location in locations && r.value.location.id == locationId
      && r.value == ViewOf(r.value.location, floors, seats)
    ensures r.Err? ==> r.error == LocationNotFound
  {
    match LocationById(locations, locationId)
    case None => Err(LocationNotFound)
    case Some(k) => Ok(ViewOf(locations[k], floors, seats))
  }
}
