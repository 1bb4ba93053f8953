/**
 * The seat-map editor's in-memory edit session (frontend/src/screens/MapEditor).
 *
 * The editor loads the seats of one floor (the baseline) and records edits as
 * a diff against it: seats added with temporary `temp_` ids, ids of baseline
 * seats removed, and per-seat partial records of updated fields. Each handler
 * is a function from one editor state to the next; the class `EditSession`
 * holds the same state in fields and its methods are proved against these
 * functions.
 */
module MapEditor {
  import opened Wrappers
  import opened Strings
  import opened Rounding
  import opened ApiSeat

  const TempPrefix: string := "temp_"

  predicate IsTemp(id: string) {
    StartsWith(id, TempPrefix)
  }

  /** The id `temp_${Date.now()}` given to a seat placed on the canvas. */
  function TempId(now: nat): (id: string)
    ensures IsTemp(id)
  {
    TempPrefix + NatToString(now)
  }

  /** A partial seat record: the fields edited on one baseline seat. */
  datatype Patch = Patch(
    id: string, seatNumber: Option<string>, seatType: Option<string>, status: Option<string>,
    capacity: Option<int>, hasPowerOutlet: Option<bool>, hasWifi: Option<bool>,
    hasAc: Option<bool>, accessibility: Option<bool>, x: Option<real>, y: Option<real>)

  /** One field edit made in the properties panel. */
  datatype Attr =
    | SeatNumberAttr(seatNumber: string)
    | SeatTypeAttr(seatType: string)
    | StatusAttr(status: string)
    | CapacityAttr(capacity: int)
    | PowerAttr(power: bool)
    | WifiAttr(wifi: bool)
    | AcAttr(ac: bool)
    | AccessibilityAttr(accessible: bool)

  /** The editor state that the handlers read and write. */
  datatype Editor = Editor(
    baseline: seq<Seat>,       // `seats`, as loaded for the selected floor
    floorId: string,           // `selectedFloorId`, "" when none
    selected: Option<string>,  // `selectedSeatId`
    addMode: bool,
    added: seq<Seat>,          // `addedSeats`
    removed: seq<string>,      // `removedSeatIds`
    updated: seq<Patch>,       // `updatedSeats`, in the Map's insertion order
    dragging: Option<string>)  // `draggingSeatId` (mirrored by `dragStateRef`)

  /** The payload of one save: each part present only when non-empty. */
  datatype NewSeat = NewSeat(
    id: string, seatNumber: string, seatType: string,
    hasPowerOutlet: bool, hasWifi: bool, hasAc: bool, accessibility: bool,
    capacity: int, floorId: string, x: real, y: real, status: string)

  datatype Payload = Payload(
    added: Option<seq<NewSeat>>, removed: Option<seq<string>>, updated: Option<seq<Patch>>)

  /** JavaScript truthiness of a nullable string. */
  predicate Truthy(o: Option<string>) {
    o.Some? && o.value != ""
  }

  function Pick<T>(o: Option<T>, d: T): T {
    if o.Some? then o.value else d
  }

  function SeatIds(ss: seq<Seat>): (ids: seq<string>)
    ensures |ids| == |ss| && forall i :: 0 <= i < |ss| ==> ids[i] == ss[i].id
  {
    if ss == [] then [] else [ss[0].id] + SeatIds(ss[1..])
  }

  function PatchIds(ps: seq<Patch>): (ids: seq<string>)
    ensures |ids| == |ps| && forall i :: 0 <= i < |ps| ==> ids[i] == ps[i].id
  {
    if ps == [] then [] else [ps[0].id] + PatchIds(ps[1..])
  }

  predicate Distinct(ids: seq<string>) {
    forall i, j :: 0 <= i < j < |ids| ==> ids[i] != ids[j]
  }

  /** `updatedSeats.get(id)`. */
  function Lookup(ps: seq<Patch>, id: string): (r: Option<Patch>)
    ensures r.Some? <==> id in PatchIds(ps)
    ensures r.Some? ==> r.value in ps && r.value.id == id
  {
    if ps == [] then None else if ps[0].id == id then Some(ps[0]) else Lookup(ps[1..], id)
  }

  /** `updatedSeats.set(p.id, p)`: replaces the entry in place or appends it. */
  function Upsert(ps: seq<Patch>, p: Patch): (r: seq<Patch>)
    ensures PatchIds(r) == if p.id in PatchIds(ps) then PatchIds(ps) else PatchIds(ps) + [p.id]
  {
    if ps == [] then [p]
    else if ps[0].id == p.id then [p] + ps[1..]
    else
      var rest := Upsert(ps[1..], p);
      assert PatchIds([ps[0]] + rest) == [ps[0].id] + PatchIds(rest);
      assert PatchIds(ps) == [ps[0].id] + PatchIds(ps[1..]);
      [ps[0]] + rest
  }

  /** After `set`, `get` of the same key returns the new value and every other key is unchanged. */
  lemma {:induction false} UpsertLookup(ps: seq<Patch>, p: Patch, id: string)
    ensures Lookup(Upsert(ps, p), id) == if id == p.id then Some(p) else Lookup(ps, id)
  {
    if ps != [] && ps[0].id != p.id {
      UpsertLookup(ps[1..], p, id);
    }
  }

  lemma UpsertLookupAll(ps: seq<Patch>, p: Patch)
    ensures Lookup(Upsert(ps, p), p.id) == Some(p)
    ensures forall id :: id != p.id ==> Lookup(Upsert(ps, p), id) == Lookup(ps, id)
  {
    UpsertLookup(ps, p, p.id);
    forall id | id != p.id ensures Lookup(Upsert(ps, p), id) == Lookup(ps, id) {
      UpsertLookup(ps, p, id);
    }
  }

  /** `updatedSeats.delete(id)`. */
  function Delete(ps: seq<Patch>, id: string): (r: seq<Patch>)
    ensures forall q :: q in r <==> q in ps && q.id != id
    ensures id !in PatchIds(r)
    ensures forall x :: x in PatchIds(r) <==> x in PatchIds(ps) && x != id
  {
    if ps == [] then []
    else if ps[0].id == id then Delete(ps[1..], id)
    else
      var r := [ps[0]] + Delete(ps[1..], id);
      assert PatchIds(r) == [ps[0].id] + PatchIds(Delete(ps[1..], id));
      r
  }

  /** The spread `{ ...seat, ...updates }`: every field the patch holds wins. */
  function Merge(s: Seat, p: Patch): (r: Seat)
    ensures r.id == p.id && r.floorId == s.floorId
  {
    s.(id := p.id,
       seatNumber := Pick(p.seatNumber, s.seatNumber),
       seatType := Pick(p.seatType, s.seatType),
       status := Pick(p.status, s.status),
       capacity := Pick(p.capacity, s.capacity),
       hasPowerOutlet := Pick(p.hasPowerOutlet, s.hasPowerOutlet),
       hasWifi := Pick(p.hasWifi, s.hasWifi),
       hasAc := Pick(p.hasAc, s.hasAc),
       accessibility := Pick(p.accessibility, s.accessibility),
       x := Pick(p.x, s.x),
       y := Pick(p.y, s.y))
  }

  /** A seat with its pending update, if any, merged over it. */
  function WithUpdate(s: Seat, ps: seq<Patch>): (r: Seat)
    ensures r.id == s.id && r.floorId == s.floorId
    ensures Lookup(ps, s.id).None? ==> r == s
  {
    var u := Lookup(ps, s.id);
    if u.Some? then Merge(s, u.value) else s
  }

  function WithUpdates(ss: seq<Seat>, ps: seq<Patch>): (r: seq<Seat>)
    ensures |r| == |ss| && forall i :: 0 <= i < |ss| ==> r[i] == WithUpdate(ss[i], ps)
  {
    if ss == [] then [] else [WithUpdate(ss[0], ps)] + WithUpdates(ss[1..], ps)
  }

  /** Baseline seats whose ids were not removed, in baseline order. */
  function Kept(ss: seq<Seat>, removed: seq<string>): (r: seq<Seat>)
    ensures forall s :: s in r <==> s in ss && s.id !in removed
    ensures |r| <= |ss|
  {
    if ss == [] then []
    else (if ss[0].id in removed then [] else [ss[0]]) + Kept(ss[1..], removed)
  }

  /** `visibleSeats`: kept baseline seats, then added seats, each with its update merged. */
  function VisibleSeats(e: Editor): seq<Seat> {
    WithUpdates(Kept(e.baseline, e.removed) + e.added, e.updated)
  }

  predicate HasChanges(e: Editor) {
    |e.added| > 0 || |e.removed| > 0 || |e.updated| > 0
  }

  /** Added seats carry distinct temporary ids. */
  ghost predicate AddedOk(added: seq<Seat>) {
    (forall i :: 0 <= i < |added| ==> IsTemp(added[i].id)) && Distinct(SeatIds(added))
  }

  /** Removed ids are distinct baseline ids. */
  ghost predicate RemovedOk(removed: seq<string>) {
    (forall i :: 0 <= i < |removed| ==> !IsTemp(removed[i])) && Distinct(removed)
  }

  /** Patches are keyed by distinct baseline ids that were not removed. */
  ghost predicate UpdatedOk(updated: seq<Patch>, removed: seq<string>) {
    (forall i :: 0 <= i < |updated| ==> !IsTemp(updated[i].id) && updated[i].id !in removed) &&
    Distinct(PatchIds(updated))
  }

  /** The session invariant that every handler keeps. */
  ghost predicate Valid(e: Editor) {
    AddedOk(e.added) && RemovedOk(e.removed) && UpdatedOk(e.updated, e.removed) &&
    (e.dragging.Some? ==> e.dragging.value !in e.removed) &&
    (e.selected.Some? ==> e.selected.value !in e.removed)
  }

  /** The state right after a floor is chosen: nothing loaded, no diff. */
  function Initial(floorId: string): (e: Editor)
    ensures Valid(e) && !HasChanges(e)
  {
    Editor([], floorId, None, false, [], [], [], None)
  }

  // ---------------------------------------------------------------------
  // Handlers

  /** `startAddMode`: toggles add mode and clears the selection. */
  function StartAddMode(e: Editor): (r: Editor)
    requires Valid(e)
    ensures Valid(r)
    ensures r.addMode == !e.addMode && r.selected == None
    ensures r == e.(addMode := r.addMode, selected := None)
  {
    e.(addMode := !e.addMode, selected := None)
  }

  /** A plain tap on a marker (`onPress`): selects it unless in add mode. */
  function MarkerPress(e: Editor, id: string): (r: Editor)
    requires Valid(e) && id !in e.removed
    ensures Valid(r)
    ensures r == if e.addMode then e else e.(selected := Some(id))
  {
    if e.addMode then e else e.(selected := Some(id))
  }

  /** `handleMarkerPressIn`: ignored in add mode, otherwise selects the seat and starts a drag. */
  function MarkerPressIn(e: Editor, id: string): (r: Editor)
    requires Valid(e) && id !in e.removed
    ensures Valid(r)
    ensures e.addMode ==> r == e
    ensures !e.addMode ==> r == e.(dragging := Some(id), selected := Some(id))
  {
    if e.addMode then e else e.(dragging := Some(id), selected := Some(id))
  }

  /** `handleContainerRelease`: ends the drag. */
  function ContainerRelease(e: Editor): (r: Editor)
    requires Valid(e)
    ensures Valid(r)
    ensures Truthy(e.dragging) ==> r == e.(dragging := None)
    ensures !Truthy(e.dragging) ==> r == e
  {
    if !Truthy(e.dragging) then e else e.(dragging := None)
  }

  /** `Math.max(0, Math.min(1, v))`. */
  function Clamp01(v: real): (c: real)
    ensures 0.0 <= c <= 1.0
    ensures 0.0 <= v <= 1.0 ==> c == v
  {
    if v < 0.0 then 0.0 else if v > 1.0 then 1.0 else v
  }

  /** `Number(Math.max(0, Math.min(1, v)).toFixed(4))`: a normalised coordinate. */
  function Coordinate(v: real): (c: real)
    ensures 0.0 <= c <= 1.0
  {
    RoundToBetween(Clamp01(v), 4, 0, 1);
    RoundTo(Clamp01(v), 4)
  }

  /**
   * The canvas's `onPointerDown` in add mode: ignored while a drag is
   * running (`dragStateRef.current.isDragging`, which is set exactly while
   * `dragging` holds a seat id); otherwise `handleCanvasPress`, which with a
   * floor selected appends one new seat at the tapped point (`rx`, `ry` are
   * the tap's offsets relative to the container size), selects it and
   * leaves add mode. `now` is `Date.now()`, `stamp` the ISO time; the
   * temporary id they give must not be in use.
   */
  function CanvasPress(e: Editor, rx: real, ry: real, now: nat, stamp: string): (r: Editor)
    requires Valid(e)
    requires TempId(now) !in SeatIds(e.added)
    ensures Valid(r)
    ensures !e.addMode || e.dragging.Some? || e.floorId == "" ==> r == e
    ensures e.addMode && e.dragging.None? && e.floorId != "" ==>
      && |r.added| == |e.added| + 1
      && r.added[..|e.added|] == e.added
      && var s := r.added[|e.added|];
      && s.id == TempId(now)
      && s.seatNumber == "NEW_" + NatToString(|e.added| + 1)
      && s.seatType == "individual" && s.status == "available" && s.capacity == 1
      && !s.hasPowerOutlet && !s.hasWifi && !s.hasAc && !s.accessibility
      && s.floorId == e.floorId
      && 0.0 <= s.x <= 1.0 && 0.0 <= s.y <= 1.0
      && r == e.(added := r.added, selected := Some(s.id), addMode := false)
  {
    if !e.addMode || e.dragging.Some? || e.floorId == "" then e
    else
      var s := Seat(TempId(now), "NEW_" + NatToString(|e.added| + 1), "individual",
                    false, false, false, false, 1, e.floorId,
                    Coordinate(rx), Coordinate(ry), "available", None, stamp, stamp);
      var r := e.(added := e.added + [s], selected := Some(s.id), addMode := false);
      assert SeatIds(r.added) == SeatIds(e.added) + [s.id];
      r
  }

  /** Sets the coordinates of the added seat with the given id. */
  function MoveAdded(ss: seq<Seat>, id: string, x: real, y: real): (r: seq<Seat>)
    ensures |r| == |ss| && SeatIds(r) == SeatIds(ss)
    ensures forall i :: 0 <= i < |ss| ==> r[i] == if ss[i].id == id then ss[i].(x := x, y := y) else ss[i]
  {
    if ss == [] then []
    else [if ss[0].id == id then ss[0].(x := x, y := y) else ss[0]] + MoveAdded(ss[1..], id, x, y)
  }

  function ApplyAttr(s: Seat, a: Attr): (r: Seat)
    ensures r.id == s.id && r.floorId == s.floorId && r.x == s.x && r.y == s.y
  {
    match a
    case SeatNumberAttr(v) => s.(seatNumber := v)
    case SeatTypeAttr(v) => s.(seatType := v)
    case StatusAttr(v) => s.(status := v)
    case CapacityAttr(v) => s.(capacity := v)
    case PowerAttr(v) => s.(hasPowerOutlet := v)
    case WifiAttr(v) => s.(hasWifi := v)
    case AcAttr(v) => s.(hasAc := v)
    case AccessibilityAttr(v) => s.(accessibility := v)
  }

  function PatchAttr(p: Patch, a: Attr): (r: Patch)
    ensures r.id == p.id
  {
    match a
    case SeatNumberAttr(v) => p.(seatNumber := Some(v))
    case SeatTypeAttr(v) => p.(seatType := Some(v))
    case StatusAttr(v) => p.(status := Some(v))
    case CapacityAttr(v) => p.(capacity := Some(v))
    case PowerAttr(v) => p.(hasPowerOutlet := Some(v))
    case WifiAttr(v) => p.(hasWifi := Some(v))
    case AcAttr(v) => p.(hasAc := Some(v))
    case AccessibilityAttr(v) => p.(accessibility := Some(v))
  }

  /** Applies an edit to the added seat with the given id. */
  function EditAdded(ss: seq<Seat>, id: string, a: Attr): (r: seq<Seat>)
    ensures |r| == |ss| && SeatIds(r) == SeatIds(ss)
    ensures forall i :: 0 <= i < |ss| ==> r[i] == if ss[i].id == id then ApplyAttr(ss[i], a) else ss[i]
  {
    if ss == [] then []
    else [if ss[0].id == id then ApplyAttr(ss[0], a) else ss[0]] + EditAdded(ss[1..], id, a)
  }

  function EmptyPatch(id: string): Patch {
    Patch(id, None, None, None, None, None, None, None, None, None, None)
  }

  /** The current patch of a baseline seat, or an empty one. */
  function CurrentPatch(ps: seq<Patch>, id: string): (p: Patch)
    ensures p.id == id
  {
    var u := Lookup(ps, id);
    if u.Some? then u.value else EmptyPatch(id)
  }

  /**
   * `handleContainerMove`: while a seat is dragged, moves it to the pointer.
   * A temporary seat changes in `added`; a baseline seat gets the new
   * coordinates merged into its entry of `updated`.
   */
  function ContainerMove(e: Editor, rx: real, ry: real): (r: Editor)
    requires Valid(e)
    ensures Valid(r)
    ensures !Truthy(e.dragging) ==> r == e
    ensures Truthy(e.dragging) && IsTemp(e.dragging.value) ==>
      r == e.(added := MoveAdded(e.added, e.dragging.value, Coordinate(rx), Coordinate(ry)))
    ensures Truthy(e.dragging) && !IsTemp(e.dragging.value) ==>
      var id := e.dragging.value;
      && r == e.(updated := r.updated)
      && Lookup(r.updated, id) == Some(CurrentPatch(e.updated, id).(x := Some(Coordinate(rx)), y := Some(Coordinate(ry))))
      && forall other :: other != id ==> Lookup(r.updated, other) == Lookup(e.updated, other)
  {
    if !Truthy(e.dragging) then e
    else
      var id := e.dragging.value;
      var x, y := Coordinate(rx), Coordinate(ry);
      if IsTemp(id) then e.(added := MoveAdded(e.added, id, x, y))
      else
        WithPatch(e, CurrentPatch(e.updated, id).(x := Some(x), y := Some(y)))
  }

  /**
   * `updateSeatAttribute`: with a seat selected, applies one field edit, to
   * the seat itself when it is temporary and to its patch otherwise.
   */
  function UpdateSeatAttribute(e: Editor, a: Attr): (r: Editor)
    requires Valid(e)
    ensures Valid(r)
    ensures !Truthy(e.selected) ==> r == e
    ensures Truthy(e.selected) && IsTemp(e.selected.value) ==>
      r == e.(added := EditAdded(e.added, e.selected.value, a))
    ensures Truthy(e.selected) && !IsTemp(e.selected.value) ==>
      var id := e.selected.value;
      && r == e.(updated := r.updated)
      && Lookup(r.updated, id) == Some(PatchAttr(CurrentPatch(e.updated, id), a))
      && forall other :: other != id ==> Lookup(r.updated, other) == Lookup(e.updated, other)
  {
    if !Truthy(e.selected) then e
    else
      var id := e.selected.value;
      if IsTemp(id) then
        EditAddedKeeps(e, id, a);
        e.(added := EditAdded(e.added, id, a))
      else
        WithPatch(e, PatchAttr(CurrentPatch(e.updated, id), a))
  }

  /** Editing a field of an added seat keeps the ids, so the invariant holds. */
  lemma EditAddedKeeps(e: Editor, id: string, a: Attr)
    requires Valid(e)
    ensures Valid(e.(added := EditAdded(e.added, id, a)))
  {
    var r := EditAdded(e.added, id, a);
    assert SeatIds(r) == SeatIds(e.added);
    forall i | 0 <= i < |r| ensures IsTemp(r[i].id) {
      assert r[i].id == SeatIds(r)[i] == SeatIds(e.added)[i] == e.added[i].id;
    }
  }

  /** Records a patch for a baseline seat: its patch is replaced, every other one kept. */
  function WithPatch(e: Editor, p: Patch): (r: Editor)
    requires Valid(e) && !IsTemp(p.id) && p.id !in e.removed
    ensures Valid(r) && r == e.(updated := r.updated)
    ensures Lookup(r.updated, p.id) == Some(p)
    ensures forall other :: other != p.id ==> Lookup(r.updated, other) == Lookup(e.updated, other)
  {
    UpsertKeeps(e, p);
    UpsertLookupAll(e.updated, p);
    e.(updated := Upsert(e.updated, p))
  }

  /** Upserting keeps the patch ids distinct. */
  lemma UpsertDistinct(ps: seq<Patch>, p: Patch)
    requires Distinct(PatchIds(ps))
    ensures Distinct(PatchIds(Upsert(ps, p)))
  {
    var ids := PatchIds(ps);
    if p.id !in ids {
      var rids := ids + [p.id];
      forall i, j | 0 <= i < j < |rids| ensures rids[i] != rids[j] {
        if j == |ids| {
          assert rids[i] == ids[i] && ids[i] in ids;
        }
      }
    }
  }

  /** Upserting a patch for a non-temporary id that is not removed keeps the patches well keyed. */
  lemma UpsertUpdatedOk(ps: seq<Patch>, p: Patch, removed: seq<string>)
    requires UpdatedOk(ps, removed) && !IsTemp(p.id) && p.id !in removed
    ensures UpdatedOk(Upsert(ps, p), removed)
  {
    var r := Upsert(ps, p);
    UpsertDistinct(ps, p);
    var ids := PatchIds(ps);
    var rids := PatchIds(r);
    forall i | 0 <= i < |r| ensures !IsTemp(r[i].id) && r[i].id !in removed {
      assert r[i].id == rids[i];
      if i < |ids| {
        assert rids[i] == ids[i] == ps[i].id;
      }
    }
  }

  /** Upserting a patch for a non-temporary id that is not removed keeps the invariant. */
  lemma UpsertKeeps(e: Editor, p: Patch)
    requires Valid(e) && !IsTemp(p.id) && p.id !in e.removed
    ensures UpdatedOk(Upsert(e.updated, p), e.removed)
    ensures Valid(e.(updated := Upsert(e.updated, p)))
  {
    UpsertUpdatedOk(e.updated, p, e.removed);
  }

  /** Removes every added seat with the given id (`prev.filter(s => s.id !== id)`). */
  function DropAdded(ss: seq<Seat>, id: string): (r: seq<Seat>)
    ensures forall s :: s in r <==> s in ss && s.id != id
  {
    if ss == [] then []
    else (if ss[0].id == id then [] else [ss[0]]) + DropAdded(ss[1..], id)
  }

  lemma {:induction false} DropAddedDistinct(ss: seq<Seat>, id: string)
    requires Distinct(SeatIds(ss))
    ensures Distinct(SeatIds(DropAdded(ss, id)))
  {
    if ss != [] {
      assert SeatIds(ss[1..]) == SeatIds(ss)[1..];
      DropAddedDistinct(ss[1..], id);
      var rest := DropAdded(ss[1..], id);
      if ss[0].id != id {
        forall i | 0 <= i < |rest| ensures rest[i].id != ss[0].id {
          assert rest[i] in ss[1..];
          var j :| 0 <= j < |ss[1..]| && ss[1..][j] == rest[i];
          assert SeatIds(ss)[j + 1] == rest[i].id;
        }
        assert DropAdded(ss, id) == [ss[0]] + rest;
        assert SeatIds([ss[0]] + rest) == [ss[0].id] + SeatIds(rest);
      }
    }
  }

  /** `Array.from(new Set([...prev, id]))`: appends `id` unless already present. */
  function AddOnce(ids: seq<string>, id: string): (r: seq<string>)
    ensures r == if id in ids then ids else ids + [id]
  {
    if id in ids then ids else ids + [id]
  }

  /**
   * `removeSelectedSeat` as the source writes it: a temporary seat is dropped
   * from `added`; a baseline id is recorded once in `removed` and its patch
   * deleted; the selection is cleared. A drag in progress is left running.
   */
  function RemoveSelectedSeatAsWritten(e: Editor): (r: Editor)
    ensures r.dragging == e.dragging && r.floorId == e.floorId
    ensures !Truthy(e.selected) ==> r == e
    ensures Truthy(e.selected) ==> r.selected.None?
  {
    if !Truthy(e.selected) then e
    else
      var id := e.selected.value;
      if IsTemp(id) then e.(added := DropAdded(e.added, id), selected := None)
      else e.(removed := AddOnce(e.removed, id), updated := Delete(e.updated, id), selected := None)
  }

  /**
   * `removeSelectedSeat` with the drag ended as well, so that no later pointer
   * move can record an update for the seat just removed.
   */
  function RemoveSelectedSeat(e: Editor): (r: Editor)
    requires Valid(e)
    ensures Valid(r)
    ensures !Truthy(e.selected) ==> r == e
    ensures Truthy(e.selected) ==> r == RemoveSelectedSeatAsWritten(e).(dragging := None)
    ensures Truthy(e.selected) ==> r.selected == None && r.dragging == None
    ensures Truthy(e.selected) && IsTemp(e.selected.value) ==>
      r.removed == e.removed && r.updated == e.updated && e.selected.value !in SeatIds(r.added)
    ensures Truthy(e.selected) && !IsTemp(e.selected.value) ==>
      && r.added == e.added
      && r.removed == AddOnce(e.removed, e.selected.value)
      && e.selected.value !in PatchIds(r.updated)
  {
    if !Truthy(e.selected) then e
    else
      var id := e.selected.value;
      var r := RemoveSelectedSeatAsWritten(e).(dragging := None);
      if IsTemp(id) then
        DropSelectedKeeps(e, id);
        r
      else
        RemoveBaselineKeeps(e, id);
        r
  }

  /** Dropping a temporary seat, with selection and drag cleared, keeps the invariant. */
  lemma DropSelectedKeeps(e: Editor, id: string)
    requires Valid(e)
    ensures Valid(e.(added := DropAdded(e.added, id), selected := None, dragging := None))
    ensures id !in SeatIds(DropAdded(e.added, id))
  {
    var added := DropAdded(e.added, id);
    DropAddedDistinct(e.added, id);
    forall i | 0 <= i < |added| ensures IsTemp(added[i].id) && added[i].id != id {
      assert added[i] in added;
      assert added[i] in e.added;
    }
  }

  /** Removing a baseline seat and its patch, with selection and drag cleared, keeps the invariant. */
  lemma RemoveBaselineKeeps(e: Editor, id: string)
    requires Valid(e) && !IsTemp(id)
    ensures Valid(e.(removed := AddOnce(e.removed, id), updated := Delete(e.updated, id), selected := None, dragging := None))
  {
    var removed, updated := AddOnce(e.removed, id), Delete(e.updated, id);
    assert forall x :: x in removed ==> x in e.removed || x == id;
    assert RemovedOk(removed) by {
      if id !in e.removed {
        forall i, j | 0 <= i < j < |removed| ensures removed[i] != removed[j] {
          if j == |e.removed| {
            assert removed[i] == e.removed[i] && e.removed[i] in e.removed;
          }
        }
      }
    }
    DeleteDistinct(e.updated, id);
    forall i | 0 <= i < |updated| ensures !IsTemp(updated[i].id) && updated[i].id !in removed {
      assert updated[i] in updated;
      assert updated[i] in e.updated;
      assert updated[i].id in PatchIds(e.updated);
    }
  }

  lemma {:induction false} DeleteDistinct(ps: seq<Patch>, id: string)
    requires Distinct(PatchIds(ps))
    ensures Distinct(PatchIds(Delete(ps, id)))
  {
    if ps != [] {
      assert Distinct(PatchIds(ps[1..])) by {
        assert PatchIds(ps[1..]) == PatchIds(ps)[1..];
      }
      DeleteDistinct(ps[1..], id);
      if ps[0].id != id {
        var rest := Delete(ps[1..], id);
        assert ps[0].id !in PatchIds(rest) by {
          assert forall x :: x in PatchIds(rest) ==> x in PatchIds(ps[1..]);
          assert PatchIds(ps[1..]) == PatchIds(ps)[1..];
        }
      }
    }
  }

  /** `cancelChanges`: discards the diff, the selection and add mode. */
  function CancelChanges(e: Editor): (r: Editor)
    requires Valid(e)
    ensures Valid(r) && !HasChanges(r)
    ensures r == e.(added := [], removed := [], updated := [], selected := None, addMode := false)
  {
    e.(added := [], removed := [], updated := [], selected := None, addMode := false)
  }

  /**
   * The effect run when `selectedFloorId` changes: with a floor chosen the
   * diff and the selection are cleared (its seats load afterwards); with none,
   * the seat list is emptied.
   */
  function SelectFloor(e: Editor, floorId: string): (r: Editor)
    requires Valid(e)
    ensures Valid(r) && r.floorId == floorId
    ensures floorId != "" ==> !HasChanges(r) && r.selected == None
    ensures floorId != "" ==>
      r == e.(floorId := floorId, added := [], removed := [], updated := [], selected := None)
    ensures floorId == "" ==> r == e.(floorId := floorId, baseline := [])
  {
    if floorId != "" then
      e.(floorId := floorId, added := [], removed := [], updated := [], selected := None)
    else e.(floorId := floorId, baseline := [])
  }

  /** `loadSeats` succeeding: the baseline is replaced. */
  function SeatsLoaded(e: Editor, seats: seq<Seat>): (r: Editor)
    requires Valid(e)
    ensures Valid(r) && r == e.(baseline := seats)
  {
    e.(baseline := seats)
  }

  /** One added seat as it is sent: fresh id, the floor's id, rounded coordinates. */
  function ToNewSeat(s: Seat, uuid: string, floorId: string): NewSeat {
    NewSeat(uuid, s.seatNumber, s.seatType, s.hasPowerOutlet, s.hasWifi, s.hasAc,
            s.accessibility, s.capacity, floorId, RoundTo(s.x, 4), RoundTo(s.y, 4), s.status)
  }

  function NewSeats(ss: seq<Seat>, uuids: seq<string>, floorId: string): (r: seq<NewSeat>)
    requires |uuids| == |ss|
    ensures |r| == |ss|
    ensures forall i :: 0 <= i < |ss| ==> r[i] == ToNewSeat(ss[i], uuids[i], floorId)
  {
    if ss == [] then [] else [ToNewSeat(ss[0], uuids[0], floorId)] + NewSeats(ss[1..], uuids[1..], floorId)
  }

  function RoundPatch(p: Patch): Patch {
    p.(x := if p.x.Some? then Some(RoundTo(p.x.value, 4)) else None,
       y := if p.y.Some? then Some(RoundTo(p.y.value, 4)) else None)
  }

  function RoundPatches(ps: seq<Patch>): (r: seq<Patch>)
    ensures |r| == |ps| && forall i :: 0 <= i < |ps| ==> r[i] == RoundPatch(ps[i])
  {
    if ps == [] then [] else [RoundPatch(ps[0])] + RoundPatches(ps[1..])
  }

  /**
   * The payload `saveChanges` sends, or `None` when no floor is selected (it
   * returns before any request). `uuids` are the fresh ids `uuidv4()` draws,
   * one per added seat.
   */
  function SavePayload(e: Editor, uuids: seq<string>): (r: Option<Payload>)
    requires |uuids| == |e.added|
    ensures e.floorId == "" <==> r.None?
    ensures r.Some? ==>
      && (r.value.added.Some? <==> |e.added| > 0)
      && (r.value.removed.Some? <==> |e.removed| > 0)
      && (r.value.updated.Some? <==> |e.updated| > 0)
      && (r.value.removed.Some? ==> r.value.removed.value == e.removed)
  {
    if e.floorId == "" then None
    else Some(Payload(
      if |e.added| > 0 then Some(NewSeats(e.added, uuids, e.floorId)) else None,
      if |e.removed| > 0 then Some(e.removed) else None,
      if |e.updated| > 0 then Some(RoundPatches(e.updated)) else None))
  }

  /** A successful save: the diff and the selection are cleared (the seats then reload). */
  function SaveSucceeded(e: Editor): (r: Editor)
    requires Valid(e)
    ensures Valid(r) && !HasChanges(r) && r.selected == None
    ensures r == e.(added := [], removed := [], updated := [], selected := None)
  {
    e.(added := [], removed := [], updated := [], selected := None)
  }

  // ---------------------------------------------------------------------
  // Properties

  /**
   * The save bar (`hasChanges`) is shown exactly when saving on the
   * selected floor would send some part of the diff.
   */
  lemma HasChangesIffPayload(e: Editor, uuids: seq<string>)
    requires |uuids| == |e.added| && e.floorId != ""
    ensures var p := SavePayload(e, uuids).value;
      HasChanges(e) <==> p.added.Some? || p.removed.Some? || p.updated.Some?
  {
  }

  /**
   * Placing a seat, and removing, editing or moving a baseline seat, each
   * leave changes to save.
   */
  lemma EditsShowChanges(e: Editor, rx: real, ry: real, now: nat, stamp: string, a: Attr)
    requires Valid(e) && TempId(now) !in SeatIds(e.added)
    ensures e.addMode && e.dragging.None? && e.floorId != "" ==> HasChanges(CanvasPress(e, rx, ry, now, stamp))
    ensures Truthy(e.selected) && !IsTemp(e.selected.value) ==>
      HasChanges(RemoveSelectedSeat(e)) && HasChanges(UpdateSeatAttribute(e, a))
    ensures Truthy(e.dragging) && !IsTemp(e.dragging.value) ==> HasChanges(ContainerMove(e, rx, ry))
  {
    if Truthy(e.selected) && !IsTemp(e.selected.value) {
      var id := e.selected.value;
      assert id in RemoveSelectedSeat(e).removed;
      assert Lookup(UpdateSeatAttribute(e, a).updated, id).Some?;
    }
    if Truthy(e.dragging) && !IsTemp(e.dragging.value) {
      assert Lookup(ContainerMove(e, rx, ry).updated, e.dragging.value).Some?;
    }
  }

  /** Temporary seats never have a pending patch. */
  lemma TempHasNoPatch(e: Editor, id: string)
    requires Valid(e) && IsTemp(id)
    ensures Lookup(e.updated, id) == None
  {
  }

  /** Merging a seat's pending update keeps its id. */
  lemma WithUpdateId(s: Seat, ps: seq<Patch>)
    ensures WithUpdate(s, ps).id == s.id
  {
  }

  /**
   * The visible seats are the kept baseline seats followed by the added
   * seats (shown as they are, since they have no patch); no removed id is shown.
   */
  lemma VisibleSeatsView(e: Editor)
    requires Valid(e)
    ensures |VisibleSeats(e)| == |Kept(e.baseline, e.removed)| + |e.added|
    ensures forall i :: 0 <= i < |e.added| ==>
      VisibleSeats(e)[|Kept(e.baseline, e.removed)| + i] == e.added[i]
    ensures forall k :: 0 <= k < |VisibleSeats(e)| ==> VisibleSeats(e)[k].id !in e.removed
  {
    var kept := Kept(e.baseline, e.removed);
    var all := kept + e.added;
    var v := VisibleSeats(e);
    forall i | 0 <= i < |e.added|
      ensures v[|kept| + i] == e.added[i]
    {
      assert all[|kept| + i] == e.added[i];
      TempHasNoPatch(e, e.added[i].id);
    }
    forall k | 0 <= k < |v| ensures v[k].id !in e.removed {
      WithUpdateId(all[k], e.updated);
      if k < |kept| {
        assert all[k] in kept;
      } else {
        assert all[k] == e.added[k - |kept|];
      }
    }
  }

  /** Cancel, a successful save and choosing a floor all leave no pending changes. */
  lemma DiffClearedOnCancelSaveAndFloorChange(e: Editor, floorId: string)
    requires Valid(e) && floorId != ""
    ensures !HasChanges(CancelChanges(e))
    ensures !HasChanges(SaveSucceeded(e))
    ensures !HasChanges(SelectFloor(e, floorId))
  {
  }

  /**
   * The saved payload: each added seat loses its temporary id, timestamps and
   * notes, and is sent with its fresh id, the selected floor and coordinates
   * rounded to four places; updated coordinates are rounded the same way.
   */
  lemma SavePayloadContents(e: Editor, uuids: seq<string>)
    requires |uuids| == |e.added| && e.floorId != ""
    ensures var p := SavePayload(e, uuids).value;
      && (p.added.Some? ==> forall i :: 0 <= i < |e.added| ==>
            && p.added.value[i].id == uuids[i]
            && p.added.value[i].floorId == e.floorId
            && p.added.value[i].seatNumber == e.added[i].seatNumber
            && p.added.value[i].x == RoundTo(e.added[i].x, 4)
            && p.added.value[i].y == RoundTo(e.added[i].y, 4))
      && (p.updated.Some? ==> PatchIds(p.updated.value) == PatchIds(e.updated))
  {
  }

  /** Placing a seat keeps the coordinates of a tap inside the container unrounded up to 4 places. */
  lemma CoordinateInRange(v: real)
    requires 0.0 <= v <= 1.0
    ensures Coordinate(v) == RoundTo(v, 4)
  {
  }

  /**
   * The session as the source writes it can record an update for a removed
   * seat: pressing a baseline seat, removing it while the drag is still
   * running, then moving the pointer.
   */
  lemma RemoveDuringDragLeavesUpdate()
    ensures var s0 := Editor([], "f1", None, false, [], [], [], None);
      var s1 := MarkerPressIn(s0, "b");
      var s2 := RemoveSelectedSeatAsWritten(s1);
      var s3 := ContainerMoveAsWritten(s2, 0.5, 0.5);
      "b" in s3.removed && "b" in PatchIds(s3.updated)
  {
    var s0 := Editor([], "f1", None, false, [], [], [], None);
    assert !IsTemp("b");
    var s2 := RemoveSelectedSeatAsWritten(MarkerPressIn(s0, "b"));
    assert s2.dragging == Some("b") && s2.removed == ["b"];
  }

  /** `handleContainerMove` on any state, without the session invariant. */
  function ContainerMoveAsWritten(e: Editor, rx: real, ry: real): (r: Editor)
    ensures !Truthy(e.dragging) ==> r == e
    ensures r.removed == e.removed && r.selected == e.selected && r.dragging == e.dragging
  {
    if !Truthy(e.dragging) then e
    else
      var id := e.dragging.value;
      var x, y := Coordinate(rx), Coordinate(ry);
      if IsTemp(id) then e.(added := MoveAdded(e.added, id, x, y))
      else e.(updated := Upsert(e.updated, CurrentPatch(e.updated, id).(x := Some(x), y := Some(y))))
  }
}
