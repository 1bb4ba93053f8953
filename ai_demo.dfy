/**
 * The seat feed of the AI demo page (backend/app/api/ai_demo.py,
 * `ai_demo_seats`). When the refresh worker has cached floor groups they
 * are served as they are; otherwise the seats are read from the table and
 * grouped by floor on the spot, the same way the worker does it but with
 * raw coordinates and the floor map URL, and with no timestamp.
 *
 * A floor may have no name (`floor_name` is a nullable column), so here a
 * path may be null: when the location name is empty too, the `or
 * floor_name` fallback yields `None`. Python's `sorted` raises `TypeError`
 * when it compares `None` with anything, which FastAPI turns into a 500
 * reply; a single floor is never compared.
 */
module AiDemo {
  import opened Wrappers
  import opened Strings
  import opened Sorting
  import opened Store
  import opened Grouping
  import opened SeatRefresh

  /** What the fallback reads through `seat.floor` and `seat.floor.location`. */
  datatype DemoPlace = DemoPlace(floorName: Option<string>, locationName: string, mapUrl: Option<string>)

  /** No floor gives the floor id as the name, no location and no map. */
  function DemoPlaceOf(seat: Seat, floors: seq<Floor>, locations: seq<Location>): (p: DemoPlace)
    ensures FloorById(floors, seat.floorId).None? ==> p == DemoPlace(Some(seat.floorId), "", None)
    ensures FloorById(floors, seat.floorId).Some? ==>
      var f := floors[FloorById(floors, seat.floorId).value];
      p.floorName == f.floorName && p.mapUrl == f.floorMapUrl
  {
    match FloorById(floors, seat.floorId)
    case None => DemoPlace(Some(seat.floorId), "", None)
    case Some(f) => DemoPlace(floors[f].floorName, LocationName(floors[f], locations), floors[f].floorMapUrl)
  }

  /**
   * `" / ".join(filter(None, [location_name, floor_name])) or floor_name`:
   * the non-empty names joined, or else the floor name itself, which is
   * then empty or null.
   */
  function DemoPath(locationName: string, floorName: Option<string>): (p: Option<string>)
    ensures Named(locationName, floorName) != [] ==> p == Some(Join(Named(locationName, floorName), " / ")) && p.value != ""
    ensures Named(locationName, floorName) == [] ==> p == floorName && !Truthy(p)
    ensures p.None? <==> floorName.None? && locationName == ""
  {
    var joined := Join(Named(locationName, floorName), " / ");
    if joined != "" then Some(joined) else floorName
  }

  /** One entry of the fallback's seat list. */
  datatype DemoSeat = DemoSeat(
    id: string, seatNumber: string, status: string, floorId: string,
    floorName: Option<string>, locationName: string, path: Option<string>,
    x: real, y: real, hasPowerOutlet: bool, hasWifi: bool, hasAc: bool, accessibility: bool,
    floorMapUrl: Option<string>)

  /** The header `setdefault` stores for a floor. */
  datatype DemoHeader = DemoHeader(
    floorId: string, floorName: Option<string>, locationName: string, path: Option<string>,
    floorMapUrl: Option<string>)

  /** One seat inside a floor group of the fallback. */
  datatype DemoGroupSeat = DemoGroupSeat(
    seatId: string, seatNumber: string, status: string,
    hasPowerOutlet: bool, hasWifi: bool, hasAc: bool, accessibility: bool, x: real, y: real)

  type DemoGroup = Group<DemoHeader, DemoGroupSeat>

  /** The body of the reply: the worker's cached groups, or the groups built on the spot. */
  datatype Body =
    | FromWorker(floors: seq<FloorGroup>, seats: seq<SnapshotSeat>)
    | Fallback(demoFloors: seq<DemoGroup>, demoSeats: seq<DemoSeat>)

  datatype Reply = Reply(body: Body, lastUpdated: Option<int>)

  function PathOfSeat(seat: Seat, floors: seq<Floor>, locations: seq<Location>): Option<string> {
    var p := DemoPlaceOf(seat, floors, locations);
    DemoPath(p.locationName, p.floorName)
  }

  function DemoEntry(seat: Seat, floors: seq<Floor>, locations: seq<Location>): DemoSeat {
    var p := DemoPlaceOf(seat, floors, locations);
    DemoSeat(seat.id, seat.seatNumber, StatusValue(seat.status), seat.floorId,
      p.floorName, p.locationName, PathOfSeat(seat, floors, locations), seat.x, seat.y,
      seat.hasPowerOutlet, seat.hasWifi, seat.hasAc, seat.accessibility, p.mapUrl)
  }

  function DemoHeaderOf(seat: Seat, floors: seq<Floor>, locations: seq<Location>): DemoHeader {
    var p := DemoPlaceOf(seat, floors, locations);
    DemoHeader(seat.floorId, p.floorName, p.locationName, PathOfSeat(seat, floors, locations), p.mapUrl)
  }

  function DemoHeaders(floors: seq<Floor>, locations: seq<Location>): Seat -> DemoHeader {
    (seat: Seat) => DemoHeaderOf(seat, floors, locations)
  }

  function DemoGroupSeatOf(seat: Seat): DemoGroupSeat {
    DemoGroupSeat(seat.id, seat.seatNumber, StatusValue(seat.status),
      seat.hasPowerOutlet, seat.hasWifi, seat.hasAc, seat.accessibility, seat.x, seat.y)
  }

  /** The seat list: one entry per seat, in query order. */
  function DemoEntries(seats: seq<Seat>, floors: seq<Floor>, locations: seq<Location>): (r: seq<DemoSeat>)
    ensures |r| == |seats|
  {
    seq(|seats|, i requires 0 <= i < |seats| => DemoEntry(seats[i], floors, locations))
  }

  /** The groups before sorting: the dict filled by the loop. */
  function DemoGroups(seats: seq<Seat>, floors: seq<Floor>, locations: seq<Location>): seq<DemoGroup> {
    GroupBy(seats, FloorKey, DemoHeaders(floors, locations), DemoGroupSeatOf)
  }

  predicate DemoBySeatNumber(a: DemoGroupSeat, b: DemoGroupSeat) {
    StrLe(a.seatNumber, b.seatNumber)
  }

  /** Paths in string order. A null path never reaches a comparison: the sort raises first. */
  predicate PathLe(a: Option<string>, b: Option<string>) {
    match a
    case None => true
    case Some(x) => b.Some? && StrLe(x, b.value)
  }

  predicate DemoByPath(g: DemoGroup, h: DemoGroup) {
    PathLe(g.header.path, h.header.path)
  }

  /** `sorted(..., key=path)` raises when two or more groups are sorted and one has a null path. */
  predicate SortRaises(groups: seq<DemoGroup>) {
    |groups| >= 2 && exists g :: 0 <= g < |groups| && groups[g].header.path.None?
  }

  const InternalServerError := ApiError(500, "Internal Server Error")

  /** The fallback of `ai_demo_seats`, as a value. */
  function FallbackOf(seats: seq<Seat>, floors: seq<Floor>, locations: seq<Location>): Result<Reply, ApiError> {
    var groups := SortItems(DemoGroups(seats, floors, locations), DemoBySeatNumber);
    if SortRaises(groups) then Err(InternalServerError)
    else Ok(Reply(Fallback(SortBy(groups, DemoByPath), DemoEntries(seats, floors, locations)), None))
  }

  /**
   * `ai_demo_seats`: the worker's snapshot when it holds floor groups,
   * unchanged; the fallback otherwise.
   */
  function DemoSeats(snapshot: SeatPayload, seats: seq<Seat>, floors: seq<Floor>, locations: seq<Location>): (r: Result<Reply, ApiError>)
    ensures snapshot.floors != [] ==>
      r == Ok(Reply(FromWorker(snapshot.floors, snapshot.seats), snapshot.lastUpdated))
    ensures snapshot.floors == [] ==> r == FallbackOf(seats, floors, locations)
  {
    if snapshot.floors != [] then Ok(Reply(FromWorker(snapshot.floors, snapshot.seats), snapshot.lastUpdated))
    else FallbackOf(seats, floors, locations)
  }

  /** Taking one more seat adds its entry. */
  lemma DemoEntriesStep(seats: seq<Seat>, floors: seq<Floor>, locations: seq<Location>, i: nat)
    requires i < |seats|
    ensures DemoEntries(seats[..i + 1], floors, locations)
      == DemoEntries(seats[..i], floors, locations) + [DemoEntry(seats[i], floors, locations)]
  {
    var e, e' := DemoEntries(seats[..i], floors, locations), DemoEntries(seats[..i + 1], floors, locations);
    assert forall k :: 0 <= k < i ==> e'[k] == e[k];
  }

  /** Taking one more seat files it under its floor. */
  lemma DemoGroupsStep(seats: seq<Seat>, floors: seq<Floor>, locations: seq<Location>, i: nat)
    requires i < |seats|
    ensures DemoGroups(seats[..i + 1], floors, locations)
      == AddItem(DemoGroups(seats[..i], floors, locations), seats[i].floorId,
                 DemoHeaderOf(seats[i], floors, locations), DemoGroupSeatOf(seats[i]))
  {
    assert seats[..i + 1][..i] == seats[..i];
  }

  /** The loop of the fallback: the seat list and the unsorted groups. */
  method CollectDemo(seats: seq<Seat>, floors: seq<Floor>, locations: seq<Location>)
      returns (payload: seq<DemoSeat>, groups: seq<DemoGroup>)
    ensures payload == DemoEntries(seats, floors, locations)
    ensures groups == DemoGroups(seats, floors, locations)
  {
    payload, groups := [], [];
    var i := 0;
    while i < |seats|
      invariant 0 <= i <= |seats|
      invariant payload == DemoEntries(seats[..i], floors, locations)
      invariant groups == DemoGroups(seats[..i], floors, locations)
    {
      var seat := seats[i];
      DemoEntriesStep(seats, floors, locations, i);
      DemoGroupsStep(seats, floors, locations, i);
      payload := payload + [DemoEntry(seat, floors, locations)];
      groups := AddItem(groups, seat.floorId, DemoHeaderOf(seat, floors, locations), DemoGroupSeatOf(seat));
      i := i + 1;
    }
    assert seats[..i] == seats;
  }

  /** Whether some group has a null path, one group at a time. */
  method FindPathless(groups: seq<DemoGroup>) returns (found: bool)
    ensures found <==> exists g :: 0 <= g < |groups| && groups[g].header.path.None?
  {
    found := false;
    var g := 0;
    while g < |groups| && !found
      invariant 0 <= g <= |groups|
      invariant found <==> exists k :: 0 <= k < g && groups[k].header.path.None?
    {
      found := groups[g].header.path.None?;
      g := g + 1;
    }
  }

  /** `ai_demo_seats`: the snapshot check, then the fallback loop and the sorts. */
  method ServeDemoSeats(snapshot: SeatPayload, seats: seq<Seat>, floors: seq<Floor>, locations: seq<Location>)
      returns (r: Result<Reply, ApiError>)
    ensures r == DemoSeats(snapshot, seats, floors, locations)
  {
    if snapshot.floors != [] {
      return Ok(Reply(FromWorker(snapshot.floors, snapshot.seats), snapshot.lastUpdated));
    }
    var payload, groups := CollectDemo(seats, floors, locations);
    groups := SortEachGroup(groups, DemoBySeatNumber);
    var pathless := FindPathless(groups);
    if |groups| >= 2 && pathless {
      return Err(InternalServerError);
    }
    r := Ok(Reply(Fallback(SortBy(groups, DemoByPath), payload), None));
  }

  // ------------------------------------------------------------------
  // What the fallback promises
  // ------------------------------------------------------------------

  /**
   * The fallback lists one entry per seat, in query order, carrying that
   * seat's id, number, floor, raw coordinates and path; it never carries
   * a timestamp.
   */
  lemma FallbackEntries(seats: seq<Seat>, floors: seq<Floor>, locations: seq<Location>)
    ensures FallbackOf(seats, floors, locations).Ok? ==>
      var reply := FallbackOf(seats, floors, locations).value;
      reply.lastUpdated == None && reply.body.Fallback? && |reply.body.demoSeats| == |seats|
      && forall i :: 0 <= i < |seats| ==>
        var e := reply.body.demoSeats[i];
        e.id == seats[i].id && e.seatNumber == seats[i].seatNumber && e.floorId == seats[i].floorId
        && e.x == seats[i].x && e.y == seats[i].y && e.path == PathOfSeat(seats[i], floors, locations)
  {
  }

  /** The fallback fails exactly when two or more floors are sorted and one has a null path. */
  lemma FallbackFails(seats: seq<Seat>, floors: seq<Floor>, locations: seq<Location>)
    ensures FallbackOf(seats, floors, locations).Err? <==>
      var raw := DemoGroups(seats, floors, locations);
      |raw| >= 2 && exists g :: 0 <= g < |raw| && raw[g].header.path.None?
  {
    var raw := DemoGroups(seats, floors, locations);
    var groups := SortItems(raw, DemoBySeatNumber);
    assert forall g :: 0 <= g < |raw| ==> groups[g].header == raw[g].header;
  }

  lemma DemoBySeatNumberTotal()
    ensures TotalPreorder(DemoBySeatNumber)
  {
    forall a, b ensures DemoBySeatNumber(a, b) || DemoBySeatNumber(b, a) {
      StrLeTotal(a.seatNumber, b.seatNumber);
    }
    forall a, b, c | DemoBySeatNumber(a, b) && DemoBySeatNumber(b, c) ensures DemoBySeatNumber(a, c) {
      StrLeTransitive(a.seatNumber, b.seatNumber, c.seatNumber);
    }
  }

  lemma DemoByPathTotal()
    ensures TotalPreorder(DemoByPath)
  {
    forall a, b ensures DemoByPath(a, b) || DemoByPath(b, a) {
      if a.header.path.Some? && b.header.path.Some? {
        StrLeTotal(a.header.path.value, b.header.path.value);
      }
    }
    forall a, b, c | DemoByPath(a, b) && DemoByPath(b, c) ensures DemoByPath(a, c) {
      if a.header.path.Some? {
        StrLeTransitive(a.header.path.value, b.header.path.value, c.header.path.value);
      }
    }
  }

  /** The floors are sorted by path, and their keys are distinct floor ids. */
  lemma FallbackOrdered(seats: seq<Seat>, floors: seq<Floor>, locations: seq<Location>)
    ensures FallbackOf(seats, floors, locations).Ok? ==>
      var fs := FallbackOf(seats, floors, locations).value.body.demoFloors;
      SortedBy(fs, DemoByPath) && DistinctKeys(fs)
  {
    var raw := DemoGroups(seats, floors, locations);
    var sorted := SortItems(raw, DemoBySeatNumber);
    DemoByPathTotal();
    SortBySorted(sorted, DemoByPath);
    GroupByDistinct(seats, FloorKey, DemoHeaders(floors, locations), DemoGroupSeatOf);
    assert DistinctKeys(sorted);
    SortByKeepsKeys(sorted, DemoByPath);
  }

  /** Every seat's floor has a group. */
  lemma FallbackCovers(seats: seq<Seat>, floors: seq<Floor>, locations: seq<Location>)
    ensures FallbackOf(seats, floors, locations).Ok? ==>
      var fs := FallbackOf(seats, floors, locations).value.body.demoFloors;
      forall i :: 0 <= i < |seats| ==> KeyIndex(fs, seats[i].floorId).Some?
  {
    var raw := DemoGroups(seats, floors, locations);
    var sorted := SortItems(raw, DemoBySeatNumber);
    var fs := SortBy(sorted, DemoByPath);
    GroupByCovers(seats, FloorKey, DemoHeaders(floors, locations), DemoGroupSeatOf);
    forall i | 0 <= i < |seats| ensures KeyIndex(fs, seats[i].floorId).Some? {
      var g := KeyIndex(raw, seats[i].floorId).value;
      var h := Found(fs, sorted, g);
      assert fs[h].key == seats[i].floorId;
    }
  }

  /** The header a seat's floor gets depends only on the floor id. */
  lemma DemoHeaderByFloor(a: Seat, b: Seat, floors: seq<Floor>, locations: seq<Location>)
    requires a.floorId == b.floorId
    ensures DemoHeaderOf(a, floors, locations) == DemoHeaderOf(b, floors, locations)
  {
  }

  /**
   * Group `g` of the fallback holds exactly the seats with its floor id
   * (as a reordering), sorted by seat number, under that floor's header.
   */
  lemma FallbackFloor(seats: seq<Seat>, floors: seq<Floor>, locations: seq<Location>, g: nat)
    requires FallbackOf(seats, floors, locations).Ok?
    requires g < |FallbackOf(seats, floors, locations).value.body.demoFloors|
    ensures var f := FallbackOf(seats, floors, locations).value.body.demoFloors[g];
      multiset(f.items) == multiset(ItemsWithKey(seats, FloorKey, f.key, DemoGroupSeatOf))
      && SortedBy(f.items, DemoBySeatNumber)
      && forall i :: 0 <= i < |seats| && seats[i].floorId == f.key ==> f.header == DemoHeaderOf(seats[i], floors, locations)
  {
    var raw := DemoGroups(seats, floors, locations);
    var sorted := SortItems(raw, DemoBySeatNumber);
    var fs := SortBy(sorted, DemoByPath);
    var k := Found(sorted, fs, g);
    DemoBySeatNumberTotal();
    SortItemsSorted(raw, DemoBySeatNumber);
    GroupByItems(seats, FloorKey, DemoHeaders(floors, locations), DemoGroupSeatOf);
    GroupByHeaders(seats, FloorKey, DemoHeaders(floors, locations), DemoGroupSeatOf);
    var i0 :| 0 <= i0 < |seats| && FloorKey(seats[i0]) == raw[k].key
      && DemoHeaders(floors, locations)(seats[i0]) == raw[k].header;
    forall i | 0 <= i < |seats| && seats[i].floorId == fs[g].key
      ensures fs[g].header == DemoHeaderOf(seats[i], floors, locations)
    {
      DemoHeaderByFloor(seats[i], seats[i0], floors, locations);
    }
  }
}
