/**
 * The map editor's component state as one object whose handlers update it
 * in place. Every method keeps the session invariant and leaves the state
 * the corresponding handler function of `MapEditor` describes.
 */
module MapEditorSession {
  import opened Wrappers
  import M = MapEditor
  import Strings
  import ApiSeat

  class EditSession {
    var baseline: seq<ApiSeat.Seat>
    var floorId: string
    var selected: Option<string>
    var addMode: bool
    var added: seq<ApiSeat.Seat>
    var removed: seq<string>
    var updated: seq<M.Patch>
    var dragging: Option<string>

    ghost function State(): M.Editor
      reads this
    {
      M.Editor(baseline, floorId, selected, addMode, added, removed, updated, dragging)
    }

    ghost predicate Valid()
      reads this
    {
      M.Valid(State())
    }

    /** The editor as it opens: no floor chosen, nothing loaded, no diff. */
    constructor ()
      ensures Valid() && State() == M.Initial("")
    {
      baseline, floorId, selected, addMode := [], "", None, false;
      added, removed, updated, dragging := [], [], [], None;
    }

    method SelectFloor(f: string)
      requires Valid()
      modifies this
      ensures Valid() && State() == M.SelectFloor(old(State()), f)
    {
      floorId := f;
      if f != "" {
        added, removed, updated, selected := [], [], [], None;
      } else {
        baseline := [];
      }
    }

    method SeatsLoaded(seats: seq<ApiSeat.Seat>)
      requires Valid()
      modifies this
      ensures Valid() && State() == M.SeatsLoaded(old(State()), seats)
    {
      baseline := seats;
    }

    method StartAddMode()
      requires Valid()
      modifies this
      ensures Valid() && State() == M.StartAddMode(old(State()))
    {
      addMode := !addMode;
      selected := None;
    }

    method MarkerPress(id: string)
      requires Valid() && id !in removed
      modifies this
      ensures Valid() && State() == M.MarkerPress(old(State()), id)
    {
      if !addMode {
        selected := Some(id);
      }
    }

    method MarkerPressIn(id: string)
      requires Valid() && id !in removed
      modifies this
      ensures Valid() && State() == M.MarkerPressIn(old(State()), id)
    {
      if !addMode {
        dragging := Some(id);
        selected := Some(id);
      }
    }

    method ContainerMove(rx: real, ry: real)
      requires Valid()
      modifies this
      ensures Valid() && State() == M.ContainerMove(old(State()), rx, ry)
    {
      ghost var r := M.ContainerMove(State(), rx, ry);
      if dragging.Some? && dragging.value != "" {
        var id := dragging.value;
        var x, y := M.Coordinate(rx), M.Coordinate(ry);
        if M.IsTemp(id) {
          added := M.MoveAdded(added, id, x, y);
        } else {
          updated := M.Upsert(updated, M.CurrentPatch(updated, id).(x := Some(x), y := Some(y)));
          assert updated == r.updated;
        }
      }
      assert State() == r;
    }

    method ContainerRelease()
      requires Valid()
      modifies this
      ensures Valid() && State() == M.ContainerRelease(old(State()))
    {
      if dragging.Some? && dragging.value != "" {
        dragging := None;
      }
    }

    method CanvasPress(rx: real, ry: real, now: nat, stamp: string)
      requires Valid() && M.TempId(now) !in M.SeatIds(added)
      modifies this
      ensures Valid() && State() == M.CanvasPress(old(State()), rx, ry, now, stamp)
    {
      if addMode && dragging.None? && floorId != "" {
        var s := ApiSeat.Seat(M.TempId(now), "NEW_" + Strings.NatToString(|added| + 1), "individual",
                        false, false, false, false, 1, floorId,
                        M.Coordinate(rx), M.Coordinate(ry), "available", None, stamp, stamp);
        added := added + [s];
        selected := Some(s.id);
        addMode := false;
      }
    }

    method UpdateSeatAttribute(a: M.Attr)
      requires Valid()
      modifies this
      ensures Valid() && State() == M.UpdateSeatAttribute(old(State()), a)
    {
      ghost var next := M.UpdateSeatAttribute(State(), a);
      if selected.Some? && selected.value != "" {
        var id := selected.value;
        if M.IsTemp(id) {
          added := M.EditAdded(added, id, a);
        } else {
          updated := M.Upsert(updated, M.PatchAttr(M.CurrentPatch(updated, id), a));
        }
      }
      assert State() == next;
    }

    method RemoveSelectedSeat()
      requires Valid()
      modifies this
      ensures Valid() && State() == M.RemoveSelectedSeat(old(State()))
    {
      ghost var next := M.RemoveSelectedSeat(State());
      if selected.Some? && selected.value != "" {
        var id := selected.value;
        if M.IsTemp(id) {
          added := M.DropAdded(added, id);
        } else {
          removed := M.AddOnce(removed, id);
          updated := M.Delete(updated, id);
        }
        selected := None;
        dragging := None;
      }
      assert State() == next;
    }

    method CancelChanges()
      requires Valid()
      modifies this
      ensures Valid() && State() == M.CancelChanges(old(State()))
    {
      added, removed, updated, selected, addMode := [], [], [], None, false;
    }

    /**
     * `saveChanges`: builds the payload (none without a floor); when the
     * server accepts it the seats reload (`reloaded`, absent when reloading
     * fails) and the diff is cleared; otherwise nothing changes.
     */
    method SaveChanges(uuids: seq<string>, accepted: bool, reloaded: Option<seq<ApiSeat.Seat>>)
      returns (payload: Option<M.Payload>)
      requires Valid() && |uuids| == |added|
      modifies this
      ensures payload == M.SavePayload(old(State()), uuids)
      ensures Valid()
      ensures payload.Some? && accepted ==>
        State() == M.SaveSucceeded(old(State()).(baseline := if reloaded.Some? then reloaded.value else old(baseline)))
      ensures payload.None? || !accepted ==> State() == old(State())
    {
      payload := M.SavePayload(M.Editor(baseline, floorId, selected, addMode, added, removed, updated, dragging), uuids);
      if payload.Some? && accepted {
        if reloaded.Some? {
          baseline := reloaded.value;
        }
        added, removed, updated, selected := [], [], [], None;
      }
    }
  }
}
