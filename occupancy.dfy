/**
 * The simulated sensor endpoints (backend/app/api/occupancy.py): a seat
 * reports itself occupied or vacated, one at a time or in a batch, or a
 * random subset of seats toggles; afterwards the floors' and locations'
 * stored counts are recounted from the seats, and the simulation records
 * one history row per location. The random draws, the clock and the new
 * history ids are parameters.
 */
module Occupancy {
  import opened Wrappers
  import opened Sorting
  import opened Store
  import Models

  /** The four tables the endpoints read and write. */
  datatype Tables = Tables(
    seats: seq<Seat>, floors: seq<Floor>, locations: seq<Location>, history: seq<HistoryRecord>)

  /** An `OccupancyEvent`; a missing timestamp is replaced by the clock. */
  datatype Event = Event(seatId: string, isOccupied: bool, timestamp: Option<int>)

  datatype Ack = Ack(message: string, seatId: string, isOccupied: bool, timestamp: int)
  datatype BatchReply = BatchReply(message: string, updatedCount: nat, totalEvents: nat)
  datatype SimulateReply = SimulateReply(message: string, updatedSeats: nat, totalSeats: nat)

  datatype Outcome<T> = Outcome(tables: Tables, reply: Result<T, ApiError>)

  const SeatNotFound := ApiError(NotFound, "Seat not found")

  // ---------------------------------------------------------------
  // Counting occupied seats
  // ---------------------------------------------------------------

  /** The query condition `Seat.floor_id == floor.id, Seat.status == OCCUPIED`. */
  function OccupiedOn(floorId: string): Seat -> bool {
    (s: Seat) => s.floorId == floorId && s.status == Occupied
  }

  /** The occupied seats of one floor. */
  function FloorCount(seats: seq<Seat>, floorId: string): (n: nat)
    ensures n <= |seats|
  {
    |Filter(seats, OccupiedOn(floorId))|
  }

  /** The join condition between a seat on `floorId` and a floor of `locationId`. */
  function FloorOfLocation(floorId: string, locationId: string): Floor -> bool {
    (f: Floor) => f.id == floorId && f.locationId == locationId
  }

  /** The rows an occupied seat contributes to the seat-floor join of a location. */
  function JoinRows(s: Seat, floors: seq<Floor>, locationId: string): nat {
    if s.status == Occupied then |Filter(floors, FloorOfLocation(s.floorId, locationId))| else 0
  }

  /**
   * `query(Seat).join(Floor).filter(Floor.location_id == id,
   * Seat.status == OCCUPIED).count()`: the rows of the join.
   */
  function LocationCount(seats: seq<Seat>, floors: seq<Floor>, locationId: string): nat {
    if seats == [] then 0
    else JoinRows(seats[0], floors, locationId) + LocationCount(seats[1..], floors, locationId)
  }

  /** The occupied seats of each floor of a location, added up floor by floor. */
  function FloorSum(seats: seq<Seat>, floors: seq<Floor>, locationId: string): nat {
    if floors == [] then 0
    else
      (if floors[0].locationId == locationId then FloorCount(seats, floors[0].id) else 0)
        + FloorSum(seats, floors[1..], locationId)
  }

  lemma {:induction false} FloorSumNoSeats(floors: seq<Floor>, locationId: string)
    ensures FloorSum([], floors, locationId) == 0
  {
    if floors != [] {
      FloorSumNoSeats(floors[1..], locationId);
    }
  }

  lemma {:induction false} FloorSumHead(seats: seq<Seat>, floors: seq<Floor>, locationId: string)
    requires seats != []
    ensures FloorSum(seats, floors, locationId)
      == JoinRows(seats[0], floors, locationId) + FloorSum(seats[1..], floors, locationId)
  {
    if floors != [] {
      FloorSumHead(seats, floors[1..], locationId);
    }
  }

  /**
   * Counting the join location by location is the same as adding up the
   * occupied seats of each of its floors.
   */
  lemma {:induction false} LocationCountIsFloorSum(seats: seq<Seat>, floors: seq<Floor>, locationId: string)
    ensures LocationCount(seats, floors, locationId) == FloorSum(seats, floors, locationId)
  {
    if seats == [] {
      FloorSumNoSeats(floors, locationId);
    } else {
      FloorSumHead(seats, floors, locationId);
      LocationCountIsFloorSum(seats[1..], floors, locationId);
    }
  }

  /** Two floor tables with the same ids and locations, row by row. */
  predicate SameKeys(a: seq<Floor>, b: seq<Floor>) {
    |a| == |b| && forall k :: 0 <= k < |a| ==> a[k].id == b[k].id && a[k].locationId == b[k].locationId
  }

  lemma {:induction false} FloorSumSameKeys(seats: seq<Seat>, a: seq<Floor>, b: seq<Floor>, locationId: string)
    requires SameKeys(a, b)
    ensures FloorSum(seats, a, locationId) == FloorSum(seats, b, locationId)
  {
    if a != [] {
      FloorSumSameKeys(seats, a[1..], b[1..], locationId);
    }
  }

  /** The join only reads the floors' ids and locations, not their counts. */
  lemma LocationCountSameKeys(seats: seq<Seat>, a: seq<Floor>, b: seq<Floor>, locationId: string)
    requires SameKeys(a, b)
    ensures LocationCount(seats, a, locationId) == LocationCount(seats, b, locationId)
  {
    LocationCountIsFloorSum(seats, a, locationId);
    LocationCountIsFloorSum(seats, b, locationId);
    FloorSumSameKeys(seats, a, b, locationId);
  }

  /** The stored `occupied_seats` of the floors of a location, added up. */
  function StoredFloorSum(floors: seq<Floor>, locationId: string): int {
    if floors == [] then 0
    else
      (if floors[0].locationId == locationId then floors[0].occupiedSeats else 0)
        + StoredFloorSum(floors[1..], locationId)
  }

  // ---------------------------------------------------------------
  // Recounting
  // ---------------------------------------------------------------

  /** Every floor's `occupied_seats` recounted from the seats. */
  function RecountFloors(seats: seq<Seat>, floors: seq<Floor>): (r: seq<Floor>)
    ensures |r| == |floors|
    ensures forall k :: 0 <= k < |r| ==> r[k] == floors[k].(occupiedSeats := FloorCount(seats, floors[k].id))
  {
    seq(|floors|, k requires 0 <= k < |floors| => floors[k].(occupiedSeats := FloorCount(seats, floors[k].id)))
  }

  /** Every location's `current_occupancy` recounted through the join. */
  function RecountLocations(seats: seq<Seat>, floors: seq<Floor>, locations: seq<Location>): (r: seq<Location>)
    ensures |r| == |locations|
    ensures forall k :: 0 <= k < |r| ==>
      r[k] == locations[k].(currentOccupancy := LocationCount(seats, floors, locations[k].id))
  {
    seq(|locations|, k requires 0 <= k < |locations| =>
      locations[k].(currentOccupancy := LocationCount(seats, floors, locations[k].id)))
  }

  /** The stored counts agree with the seats. */
  predicate Consistent(t: Tables) {
    (forall k :: 0 <= k < |t.floors| ==> t.floors[k].occupiedSeats == FloorCount(t.seats, t.floors[k].id))
    && (forall k :: 0 <= k < |t.locations| ==>
          t.locations[k].currentOccupancy == LocationCount(t.seats, t.floors, t.locations[k].id))
  }

  /**
   * The tables after the recount that ends a batch and a simulation: only
   * the floors' and locations' counts change, and they then agree with the
   * seats.
   */
  function Recount(t: Tables): (r: Tables)
    ensures Consistent(r)
    ensures r.seats == t.seats && r.history == t.history
    ensures |r.floors| == |t.floors| && |r.locations| == |t.locations|
    ensures forall k :: 0 <= k < |r.floors| ==> r.floors[k] == t.floors[k].(occupiedSeats := r.floors[k].occupiedSeats)
    ensures forall k :: 0 <= k < |r.locations| ==>
      r.locations[k] == t.locations[k].(currentOccupancy := r.locations[k].currentOccupancy)
  {
    var floors := RecountFloors(t.seats, t.floors);
    Tables(t.seats, floors, RecountLocations(t.seats, floors, t.locations), t.history)
  }

  /**
   * After a recount each location's occupancy equals the sum of the
   * `occupied_seats` of its floors.
   */
  lemma RecountAddsUp(t: Tables, k: nat)
    requires k < |t.locations|
    ensures Recount(t).locations[k].currentOccupancy == StoredFloorSum(Recount(t).floors, t.locations[k].id)
  {
    var r := Recount(t);
    LocationCountIsFloorSum(t.seats, r.floors, t.locations[k].id);
    StoredFloorSumRecounted(t.seats, t.floors, t.locations[k].id);
  }

  lemma {:induction false} StoredFloorSumRecounted(seats: seq<Seat>, floors: seq<Floor>, locationId: string)
    ensures StoredFloorSum(RecountFloors(seats, floors), locationId) == FloorSum(seats, RecountFloors(seats, floors), locationId)
  {
    var r := RecountFloors(seats, floors);
    if floors != [] {
      assert r[1..] == RecountFloors(seats, floors[1..]);
      StoredFloorSumRecounted(seats, floors[1..], locationId);
      FloorSumSameKeys(seats, r[1..], RecountFloors(seats, floors[1..]), locationId);
    }
  }

  // ---------------------------------------------------------------
  // One event
  // ---------------------------------------------------------------

  function StatusFor(isOccupied: bool): (s: SeatStatus)
    ensures s == Occupied <==> isOccupied
    ensures s == Available <==> !isOccupied
  {
    if isOccupied then Occupied else Available
  }

  /**
   * `update_seat_occupancy`: 404 for an unknown seat; otherwise the seat's
   * status follows the event, its floor (when it exists) gets its count
   * recounted, and so does that floor's location (when it exists).
   */
  function UpdateSeat(t: Tables, e: Event, now: int): (o: Outcome<Ack>)
    ensures SeatById(t.seats, e.seatId).None? <==> o == Outcome(t, Err(SeatNotFound))
    ensures o.reply.Ok? ==> o.reply.value == Ack("Occupancy updated successfully", e.seatId, e.isOccupied,
      if e.timestamp.Some? then e.timestamp.value else now)
    ensures o.reply.Ok? ==>
      o.tables.seats == WithStatus(t.seats, SeatById(t.seats, e.seatId).value, StatusFor(e.isOccupied))
    ensures o.tables.history == t.history
    ensures SameKeys(o.tables.floors, t.floors) && |o.tables.locations| == |t.locations|
  {
    match SeatById(t.seats, e.seatId)
    case None => Outcome(t, Err(SeatNotFound))
    case Some(i) =>
      var seats := WithStatus(t.seats, i, StatusFor(e.isOccupied));
      var ack := Ack("Occupancy updated successfully", e.seatId, e.isOccupied,
        if e.timestamp.Some? then e.timestamp.value else now);
      match FloorById(t.floors, seats[i].floorId)
      case None => Outcome(Tables(seats, t.floors, t.locations, t.history), Ok(ack))
      case Some(f) =>
        var floor := t.floors[f];
        var floors := t.floors[f := floor.(occupiedSeats := FloorCount(seats, floor.id))];
        match LocationById(t.locations, floor.locationId)
        case None => Outcome(Tables(seats, floors, t.locations, t.history), Ok(ack))
        case Some(l) =>
          var loc := t.locations[l];
          var locations := t.locations[l := loc.(currentOccupancy := LocationCount(seats, floors, loc.id))];
          Outcome(Tables(seats, floors, locations, t.history), Ok(ack))
  }

  /**
   * After an event, the seat's floor holds the number of occupied seats on
   * it, and that floor's location the number of occupied seats across its
   * floors.
   */
  lemma UpdateSeatRecounts(t: Tables, e: Event, now: int)
    requires SeatById(t.seats, e.seatId).Some?
    ensures var o := UpdateSeat(t, e, now);
      var floorId := t.seats[SeatById(t.seats, e.seatId).value].floorId;
      FloorById(t.floors, floorId).Some? ==>
        var f := FloorById(t.floors, floorId).value;
        o.tables.floors[f].occupiedSeats == FloorCount(o.tables.seats, floorId)
          && (LocationById(t.locations, t.floors[f].locationId).Some? ==>
                var l := LocationById(t.locations, t.floors[f].locationId).value;
                o.tables.locations[l].currentOccupancy
                  == FloorSum(o.tables.seats, o.tables.floors, t.floors[f].locationId))
  {
    var o := UpdateSeat(t, e, now);
    var i := SeatById(t.seats, e.seatId).value;
    var floorId := t.seats[i].floorId;
    if FloorById(t.floors, floorId).Some? {
      var f := FloorById(t.floors, floorId).value;
      if LocationById(t.locations, t.floors[f].locationId).Some? {
        LocationCountIsFloorSum(o.tables.seats, o.tables.floors, t.floors[f].locationId);
      }
    }
  }

  // ---------------------------------------------------------------
  // A batch of events
  // ---------------------------------------------------------------

  /** One event of a batch: a known seat takes the reported status, an unknown one is skipped. */
  function ApplyEvent(seats: seq<Seat>, e: Event): (r: seq<Seat>)
    ensures |r| == |seats|
    ensures SeatById(seats, e.seatId).None? ==> r == seats
    ensures forall k :: 0 <= k < |seats| ==>
      r[k] == if SeatById(seats, e.seatId) == Some(k) then seats[k].(status := StatusFor(e.isOccupied)) else seats[k]
  {
    match SeatById(seats, e.seatId)
    case None => seats
    case Some(i) => WithStatus(seats, i, StatusFor(e.isOccupied))
  }

  /** The events applied in order. */
  function ApplyEvents(seats: seq<Seat>, events: seq<Event>): (r: seq<Seat>)
    ensures |r| == |seats|
  {
    if events == [] then seats
    else ApplyEvent(ApplyEvents(seats, events[..|events| - 1]), events[|events| - 1])
  }

  /** The query condition: the event names a stored seat. */
  function Known(seats: seq<Seat>): Event -> bool {
    (e: Event) => SeatById(seats, e.seatId).Some?
  }

  /** Applying events never changes which seat an id finds. */
  lemma {:induction false} ApplyEventsKeepsLookup(seats: seq<Seat>, events: seq<Event>, seatId: string)
    ensures SeatById(ApplyEvents(seats, events), seatId) == SeatById(seats, seatId)
  {
    if events != [] {
      var before := ApplyEvents(seats, events[..|events| - 1]);
      ApplyEventsKeepsLookup(seats, events[..|events| - 1], seatId);
      var e := events[|events| - 1];
      if SeatById(before, e.seatId).Some? {
        WithStatusKeepsLookup(before, SeatById(before, e.seatId).value, StatusFor(e.isOccupied), seatId);
      }
    }
  }

  /** One more event of a batch: applied to the prefix's result, counted when it names a stored seat. */
  lemma ApplyEventsStep(seats: seq<Seat>, events: seq<Event>, i: nat)
    requires i < |events|
    ensures ApplyEvents(seats, events[..i + 1]) == ApplyEvent(ApplyEvents(seats, events[..i]), events[i])
    ensures SeatById(ApplyEvents(seats, events[..i]), events[i].seatId) == SeatById(seats, events[i].seatId)
    ensures |Filter(events[..i + 1], Known(seats))|
      == |Filter(events[..i], Known(seats))| + (if SeatById(seats, events[i].seatId).Some? then 1 else 0)
  {
    var e := events[i];
    assert events[..i + 1] == events[..i] + [e];
    assert events[..i + 1][..i] == events[..i];
    FilterAppend(events[..i], [e], Known(seats));
    assert Filter([e], Known(seats)) == if Known(seats)(e) then [e] else [];
    ApplyEventsKeepsLookup(seats, events[..i], e.seatId);
  }

  /** A seat that no event names keeps its row; so does every seat's id. */
  lemma {:induction false} ApplyEventsFrame(seats: seq<Seat>, events: seq<Event>, k: nat)
    requires k < |seats|
    ensures ApplyEvents(seats, events)[k].id == seats[k].id
    ensures ApplyEvents(seats, events)[k].floorId == seats[k].floorId
    ensures (forall j :: 0 <= j < |events| ==> events[j].seatId != seats[k].id) ==>
      ApplyEvents(seats, events)[k] == seats[k]
  {
    if events != [] {
      var init := events[..|events| - 1];
      ApplyEventsFrame(seats, init, k);
    }
  }

  /** The last event naming a stored seat decides its status. */
  lemma LastEventWins(seats: seq<Seat>, events: seq<Event>, e: Event)
    requires SeatById(seats, e.seatId).Some?
    ensures var r := ApplyEvents(seats, events + [e]);
      r[SeatById(seats, e.seatId).value].status == StatusFor(e.isOccupied)
  {
    assert (events + [e])[..|events|] == events;
    ApplyEventsKeepsLookup(seats, events, e.seatId);
  }

  /**
   * `batch_update_occupancy`: the known seats take their reported status
   * in order, unknown ids are skipped, and every floor and location is
   * recounted; `updated_count` counts the events naming a stored seat.
   */
  function Batch(t: Tables, events: seq<Event>): (o: Outcome<BatchReply>)
    ensures o.reply == Ok(BatchReply("Batch update completed", |Filter(events, Known(t.seats))|, |events|))
    ensures o.tables == Recount(t.(seats := ApplyEvents(t.seats, events)))
    ensures Consistent(o.tables)
  {
    Outcome(Recount(t.(seats := ApplyEvents(t.seats, events))),
      Ok(BatchReply("Batch update completed", |Filter(events, Known(t.seats))|, |events|)))
  }

  // ---------------------------------------------------------------
  // Random simulation
  // ---------------------------------------------------------------

  /** A selected seat: available and occupied swap, every other status stays. */
  function Toggle(s: SeatStatus): (r: SeatStatus)
    ensures s == Available ==> r == Occupied
    ensures s == Occupied ==> r == Available
    ensures s != Available && s != Occupied ==> r == s
  {
    match s
    case Available => Occupied
    case Occupied => Available
    case _ => s
  }

  /** The seats after the draws; `picked[k]` is `random.random() < 0.3` for seat `k`. */
  function Toggled(seats: seq<Seat>, picked: seq<bool>): (r: seq<Seat>)
    requires |picked| == |seats|
    ensures |r| == |seats|
    ensures forall k :: 0 <= k < |r| ==> r[k] == if picked[k] then seats[k].(status := Toggle(seats[k].status)) else seats[k]
  {
    seq(|seats|, k requires 0 <= k < |seats| =>
      if picked[k] then seats[k].(status := Toggle(seats[k].status)) else seats[k])
  }

  /** The number of seats drawn (`len(updated_seats)`). */
  function CountPicked(picked: seq<bool>): (n: nat)
    ensures n <= |picked|
  {
    |Filter(picked, (b: bool) => b)|
  }

  /** The history row recorded for a recounted location. */
  function HistoryFor(l: Location, id: string, now: int, dayOfWeek: int, hourOfDay: int): (h: HistoryRecord)
    ensures h.locationId == l.id && h.floorId.None? && h.timestamp == now
    ensures h.occupancyCount == l.currentOccupancy && h.totalCapacity == l.totalCapacity
  {
    HistoryRecord(id, l.id, None, now, l.currentOccupancy, l.totalCapacity, dayOfWeek, hourOfDay)
  }

  /** One history row per location, in table order. */
  function HistoryRows(locations: seq<Location>, ids: seq<string>, now: int, dayOfWeek: int, hourOfDay: int): (r: seq<HistoryRecord>)
    requires |ids| == |locations|
    ensures |r| == |locations|
    ensures forall k :: 0 <= k < |r| ==> r[k] == HistoryFor(locations[k], ids[k], now, dayOfWeek, hourOfDay)
  {
    seq(|locations|, k requires 0 <= k < |locations| => HistoryFor(locations[k], ids[k], now, dayOfWeek, hourOfDay))
  }

  /**
   * `simulate_random_occupancy`: drawn seats toggle between available and
   * occupied (other statuses stay but count as updated), everything is
   * recounted, and each location gets one history row with its new count.
   */
  function Simulate(t: Tables, picked: seq<bool>, ids: seq<string>, now: int, dayOfWeek: int, hourOfDay: int): (o: Outcome<SimulateReply>)
    requires |picked| == |t.seats| && |ids| == |t.locations|
    ensures o.reply == Ok(SimulateReply("Random occupancy simulation completed", CountPicked(picked), |t.seats|))
    ensures var r := Recount(t.(seats := Toggled(t.seats, picked)));
      o.tables == r.(history := t.history + HistoryRows(r.locations, ids, now, dayOfWeek, hourOfDay))
  {
    var r := Recount(t.(seats := Toggled(t.seats, picked)));
    Outcome(r.(history := t.history + HistoryRows(r.locations, ids, now, dayOfWeek, hourOfDay)),
      Ok(SimulateReply("Random occupancy simulation completed", CountPicked(picked), |t.seats|)))
  }

  /**
   * A simulation touches only available and occupied seats, leaves the
   * counts consistent, and appends exactly one history row per location
   * holding that location's recounted occupancy.
   */
  lemma SimulateProperties(t: Tables, picked: seq<bool>, ids: seq<string>, now: int, dayOfWeek: int, hourOfDay: int)
    requires |picked| == |t.seats| && |ids| == |t.locations|
    ensures var o := Simulate(t, picked, ids, now, dayOfWeek, hourOfDay).tables;
      && (forall k :: 0 <= k < |t.seats| && t.seats[k].status != Available && t.seats[k].status != Occupied ==>
            o.seats[k] == t.seats[k])
      && Consistent(o.(history := t.history))
      && |o.history| == |t.history| + |t.locations|
      && o.history[..|t.history|] == t.history
      && forall k :: 0 <= k < |t.locations| ==>
           o.history[|t.history| + k].locationId == t.locations[k].id
           && o.history[|t.history| + k].occupancyCount == o.locations[k].currentOccupancy
           && o.locations[k].currentOccupancy == LocationCount(o.seats, o.floors, t.locations[k].id)
  {
  }

  // ---------------------------------------------------------------
  // Queries
  // ---------------------------------------------------------------

  /** An `OccupancyResponse` of `get_current_occupancy`. */
  datatype Current = Current(locationId: string, count: int, capacity: int, percentage: real, timestamp: int)

  /** The entry for one location, read from its stored count and capacity. */
  function CurrentOf(l: Location, now: int): Current {
    Current(l.id, l.currentOccupancy, l.totalCapacity, Models.RoundedPercentage(l.currentOccupancy, l.totalCapacity), now)
  }

  /**
   * `get_current_occupancy`: one entry per location, or only the locations
   * with the named id when a non-empty id is given, each with its stored
   * count and capacity and its busyness percentage.
   */
  function CurrentOccupancy(locations: seq<Location>, locationId: Option<string>, now: int): (r: seq<Current>)
    ensures locationId.None? || locationId.value == "" ==>
      |r| == |locations| && forall k :: 0 <= k < |r| ==> r[k] == CurrentOf(locations[k], now)
    ensures locationId.Some? && locationId.value != "" ==>
      var m := Filter(locations, LocationIdIs(locationId.value));
      |r| == |m| && forall k :: 0 <= k < |r| ==> r[k] == CurrentOf(m[k], now)
    ensures forall k :: 0 <= k < |r| ==>
      r[k].percentage == Models.RoundedPercentage(r[k].count, r[k].capacity) && r[k].timestamp == now
    ensures forall k :: 0 <= k < |r| ==> locationId.Some? && locationId.value != "" ==> r[k].locationId == locationId.value
  {
    var chosen := if locationId.Some? && locationId.value != "" then Filter(locations, LocationIdIs(locationId.value)) else locations;
    seq(|chosen|, k requires 0 <= k < |chosen| => CurrentOf(chosen[k], now))
  }

  /** A query for a non-empty id reports a stored location exactly when it has that id. */
  lemma CurrentOccupancyFiltered(locations: seq<Location>, id: string, now: int, l: Location)
    requires id != "" && l in locations
    ensures CurrentOf(l, now) in CurrentOccupancy(locations, Some(id), now) <==> l.id == id
  {
    var r := CurrentOccupancy(locations, Some(id), now);
    var m := Filter(locations, LocationIdIs(id));
    if l.id == id {
      FilterKeeps(locations, LocationIdIs(id), l);
      var k :| 0 <= k < |m| && m[k] == l;
      assert r[k] == CurrentOf(l, now);
    }
  }

  /** The query condition `OccupancyHistory.location_id == location_id`. */
  function RecordedFor(locationId: string): HistoryRecord -> bool {
    (h: HistoryRecord) => h.locationId == locationId
  }

  /** `timestamp` descending. */
  function Newer(): (HistoryRecord, HistoryRecord) -> bool {
    (a: HistoryRecord, b: HistoryRecord) => a.timestamp >= b.timestamp
  }

  /** The records the query condition selects: the named location's, or all of them when no non-empty id is given. */
  function Selected(history: seq<HistoryRecord>, locationId: Option<string>): seq<HistoryRecord> {
    if locationId.Some? && locationId.value != "" then Filter(history, RecordedFor(locationId.value)) else history
  }

  /**
   * `get_occupancy_history`: the selected records newest first, as many as
   * there are up to `limit`.
   */
  function HistoryQuery(history: seq<HistoryRecord>, locationId: Option<string>, limit: int): (r: seq<HistoryRecord>)
    requires 1 <= limit <= 1000
    ensures |r| == if limit < |Selected(history, locationId)| then limit else |Selected(history, locationId)|
  {
    var chosen := Selected(history, locationId);
    var sorted := SortBy(chosen, Newer());
    assert |sorted| == |multiset(sorted)| == |chosen|;
    Take(sorted, limit)
  }

  /**
   * The history query returns stored records only, of the named location,
   * newest first; a selected record it leaves out is no newer than any it
   * returns.
   */
  lemma HistoryQueryProperties(history: seq<HistoryRecord>, locationId: Option<string>, limit: int)
    requires 1 <= limit <= 1000
    ensures var r := HistoryQuery(history, locationId, limit);
      && (forall h :: h in r ==> h in history)
      && (locationId.Some? && locationId.value != "" ==> forall h :: h in r ==> h.locationId == locationId.value)
      && (forall i, j :: 0 <= i < j < |r| ==> r[i].timestamp >= r[j].timestamp)
      && (forall h, k :: h in Selected(history, locationId) && h !in r && 0 <= k < |r| ==> h.timestamp <= r[k].timestamp)
  {
    var chosen := Selected(history, locationId);
    var sorted := SortBy(chosen, Newer());
    var r := HistoryQuery(history, locationId, limit);
    SortBySorted(chosen, Newer());
    assert |sorted| == |multiset(sorted)| == |chosen|;
    assert r == sorted[..|r|];
    forall h | h in r ensures h in chosen && h in history {
      assert h in sorted;
      assert h in multiset(sorted);
      if locationId.Some? && locationId.value != "" {
        FilterMember(history, RecordedFor(locationId.value), h);
      }
    }
    forall h, k | h in chosen && h !in r && 0 <= k < |r| ensures h.timestamp <= r[k].timestamp {
      assert h in multiset(sorted);
      var j :| 0 <= j < |sorted| && sorted[j] == h;
      assert r[k] == sorted[k];
    }
  }

  // ---------------------------------------------------------------
  // The endpoints over stored tables
  // ---------------------------------------------------------------

  /** The four tables, updated in place by each request. */
  class OccupancyMonitor {
    var seats: seq<Seat>
    var floors: seq<Floor>
    var locations: seq<Location>
    var history: seq<HistoryRecord>

    function Contents(): Tables
      reads this
    {
      Tables(seats, floors, locations, history)
    }

    constructor(t: Tables)
      ensures Contents() == t
    {
      seats, floors, locations, history := t.seats, t.floors, t.locations, t.history;
    }

    method UpdateSeatOccupancy(e: Event, now: int) returns (reply: Result<Ack, ApiError>)
      modifies this
      ensures Outcome(Contents(), reply) == UpdateSeat(old(Contents()), e, now)
    {
      ghost var t := Contents();
      var found := FindFirst(seats, SeatIdIs(e.seatId));
      assert found == SeatById(t.seats, e.seatId);
      if found.None? {
        return Err(SeatNotFound);
      }
      var i := found.value;
      seats := seats[i := seats[i].(status := if e.isOccupied then Occupied else Available)];
      assert seats == WithStatus(t.seats, i, StatusFor(e.isOccupied));
      reply := Ok(Ack("Occupancy updated successfully", e.seatId, e.isOccupied,
        if e.timestamp.Some? then e.timestamp.value else now));
      var f := FindFirst(floors, FloorIdIs(seats[i].floorId));
      assert f == FloorById(t.floors, seats[i].floorId);
      if f.Some? {
        var floor := floors[f.value];
        floors := floors[f.value := floor.(occupiedSeats := FloorCount(seats, floor.id))];
        var l := FindFirst(locations, LocationIdIs(floor.locationId));
        assert l == LocationById(t.locations, floor.locationId);
        if l.Some? {
          var loc := locations[l.value];
          locations := locations[l.value := loc.(currentOccupancy := LocationCount(seats, floors, loc.id))];
        }
      }
    }

    method BatchUpdateOccupancy(events: seq<Event>) returns (reply: Result<BatchReply, ApiError>)
      modifies this
      ensures Outcome(Contents(), reply) == Batch(old(Contents()), events)
    {
      var updated := ApplyAll(events);
      RecountAll();
      reply := Ok(BatchReply("Batch update completed", updated, |events|));
    }

    /** The event loop of a batch: each known seat takes its reported status. */
    method ApplyAll(events: seq<Event>) returns (updated: nat)
      modifies this
      ensures seats == ApplyEvents(old(seats), events)
      ensures updated == |Filter(events, Known(old(seats)))|
      ensures floors == old(floors) && locations == old(locations) && history == old(history)
    {
      updated := 0;
      for i := 0 to |events|
        invariant seats == ApplyEvents(old(seats), events[..i])
        invariant updated == |Filter(events[..i], Known(old(seats)))|
        invariant floors == old(floors) && locations == old(locations) && history == old(history)
      {
        ApplyEventsStep(old(seats), events, i);
        var applied := ApplyOne(events[i]);
        if applied {
          updated := updated + 1;
        }
      }
      assert events[..|events|] == events;
    }

    /** One event of the loop: the seat, when found, takes the reported status. */
    method ApplyOne(e: Event) returns (applied: bool)
      modifies this
      ensures seats == ApplyEvent(old(seats), e)
      ensures applied <==> SeatById(old(seats), e.seatId).Some?
      ensures floors == old(floors) && locations == old(locations) && history == old(history)
    {
      var found := FindFirst(seats, SeatIdIs(e.seatId));
      applied := found.Some?;
      if found.Some? {
        seats := seats[found.value := seats[found.value].(status := if e.isOccupied then Occupied else Available)];
      }
    }

    /** The two recount loops: every floor, then every location. */
    method RecountAll()
      modifies this
      ensures Contents() == Recount(old(Contents()))
    {
      RecountFloorRows();
      for i := 0 to |locations|
        invariant |locations| == |old(locations)|
        invariant seats == old(seats) && floors == RecountFloors(seats, old(floors)) && history == old(history)
        invariant forall k :: 0 <= k < |locations| ==>
          locations[k] == if k < i then old(locations)[k].(currentOccupancy := LocationCount(seats, floors, old(locations)[k].id))
                          else old(locations)[k]
      {
        locations := locations[i := locations[i].(currentOccupancy := LocationCount(seats, floors, locations[i].id))];
      }
    }

    method RecountFloorRows()
      modifies this
      ensures floors == RecountFloors(seats, old(floors))
      ensures seats == old(seats) && locations == old(locations) && history == old(history)
    {
      for i := 0 to |floors|
        invariant |floors| == |old(floors)|
        invariant seats == old(seats) && locations == old(locations) && history == old(history)
        invariant forall k :: 0 <= k < |floors| ==>
          floors[k] == if k < i then old(floors)[k].(occupiedSeats := FloorCount(seats, old(floors)[k].id))
                       else old(floors)[k]
      {
        floors := floors[i := floors[i].(occupiedSeats := FloorCount(seats, floors[i].id))];
      }
    }

    method SimulateRandomOccupancy(picked: seq<bool>, ids: seq<string>, now: int, dayOfWeek: int, hourOfDay: int)
      returns (reply: Result<SimulateReply, ApiError>)
      requires |picked| == |seats| && |ids| == |locations|
      modifies this
      ensures Outcome(Contents(), reply) == Simulate(old(Contents()), picked, ids, now, dayOfWeek, hourOfDay)
    {
      var updated := 0;
      for i := 0 to |seats|
        invariant |seats| == |old(seats)|
        invariant floors == old(floors) && locations == old(locations) && history == old(history)
        invariant forall k :: 0 <= k < |seats| ==>
          seats[k] == if k < i then Toggled(old(seats), picked)[k] else old(seats)[k]
        invariant updated == CountPicked(picked[..i])
      {
        assert picked[..i + 1] == picked[..i] + [picked[i]];
        FilterAppend(picked[..i], [picked[i]], (b: bool) => b);
        if picked[i] {
          seats := seats[i := seats[i].(status := Toggle(seats[i].status))];
          updated := updated + 1;
        }
      }
      assert seats == Toggled(old(seats), picked);
      assert picked[..|picked|] == picked;
      RecountFloorRows();
      ghost var recounted := RecountLocations(seats, floors, locations);
      for i := 0 to |locations|
        invariant |locations| == |old(locations)|
        invariant seats == Toggled(old(seats), picked) && floors == RecountFloors(seats, old(floors))
        invariant forall k :: 0 <= k < |locations| ==>
          locations[k] == if k < i then recounted[k] else old(locations)[k]
        invariant history == old(history) + HistoryRows(recounted[..i], ids[..i], now, dayOfWeek, hourOfDay)
      {
        locations := locations[i := locations[i].(currentOccupancy := LocationCount(seats, floors, locations[i].id))];
        assert recounted[..i + 1] == recounted[..i] + [recounted[i]];
        history := history + [HistoryFor(locations[i], ids[i], now, dayOfWeek, hourOfDay)];
      }
      assert recounted[..|locations|] == recounted && ids[..|locations|] == ids;
      reply := Ok(SimulateReply("Random occupancy simulation completed", updated, |seats|));
    }
  }
}
