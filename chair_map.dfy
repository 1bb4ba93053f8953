/**
 * The chair map screen (frontend/src/components/map/InteractiveMap.tsx):
 * a single selection that a press toggles, the selected chair's record, the
 * counts shown in the header, and the fullscreen flag. The chair list is a
 * parameter: the module it is imported from is not part of this model.
 */
module ChairMap {
  import opened Wrappers
  import opened Sorting

  /** A chair on the demo map; absent flags read as false. */
  datatype Chair = Chair(id: string, x: real, y: real, hasPlug: bool, occupied: bool, tag: Option<string>)

  /** `prev === id ? null : id`: pressing the selected chair deselects it, any other selects that one. */
  function Toggle(prev: Option<string>, id: string): (r: Option<string>)
    ensures r == None <==> prev == Some(id)
    ensures r.Some? ==> r.value == id
  {
    if prev == Some(id) then None else Some(id)
  }

  /** Pressing twice restores the selection when the chair was selected or nothing was. */
  lemma ToggleTwice(prev: Option<string>, id: string)
    requires prev == None || prev == Some(id)
    ensures Toggle(Toggle(prev, id), id) == prev
  {
  }

  /** `chairs.find(c => c.id === selected)`: the first chair with the selected id. */
  function Find(chairs: seq<Chair>, selected: Option<string>): (r: Option<Chair>)
    ensures selected.None? ==> r.None?
    ensures r.Some? ==> r.value in chairs && selected == Some(r.value.id)
    ensures selected.Some? && r.None? ==> forall c :: c in chairs ==> c.id != selected.value
  {
    if selected.None? || chairs == [] then None
    else if chairs[0].id == selected.value then Some(chairs[0])
    else Find(chairs[1..], selected)
  }

  function NotOccupied(c: Chair): bool { !c.occupied }
  function FreeWithPlug(c: Chair): bool { c.hasPlug && !c.occupied }

  /** `availableSeats`: the chairs that are not occupied. */
  function AvailableCount(chairs: seq<Chair>): nat {
    |Filter(chairs, NotOccupied)|
  }

  /** `seatsWithPlugs`: the free chairs that have a plug. */
  function PlugCount(chairs: seq<Chair>): nat {
    |Filter(chairs, FreeWithPlug)|
  }

  /** Every chair with a plug that is counted is also counted as available. */
  lemma {:induction false} PlugsAtMostAvailable(chairs: seq<Chair>)
    ensures PlugCount(chairs) <= AvailableCount(chairs)
  {
    if chairs != [] {
      PlugsAtMostAvailable(chairs[1..]);
    }
  }

  datatype Fill = OccupiedFill | SelectedFill | AvailableFill

  /** An occupied chair is drawn occupied whether or not it is selected. */
  function FillOf(occupied: bool, selected: bool): (f: Fill)
    ensures f == OccupiedFill <==> occupied
    ensures f == SelectedFill <==> !occupied && selected
  {
    if occupied then OccupiedFill else if selected then SelectedFill else AvailableFill
  }

  /** The screen's state: the selected chair and whether the map is fullscreen. */
  class ChairSelection {
    var selected: Option<string>
    var fullscreen: bool

    constructor ()
      ensures selected == None && !fullscreen
    {
      selected := None;
      fullscreen := false;
    }

    /** `handleChairPress`. */
    method PressChair(id: string)
      modifies this
      ensures selected == Toggle(old(selected), id) && fullscreen == old(fullscreen)
    {
      selected := if selected == Some(id) then None else Some(id);
    }

    method OpenFullscreen()
      modifies this
      ensures fullscreen && selected == old(selected)
    {
      fullscreen := true;
    }

    /** Closing the fullscreen view keeps the selection. */
    method CloseFullscreen()
      modifies this
      ensures !fullscreen && selected == old(selected)
    {
      fullscreen := false;
    }

    /** `onDeselectChair`: the only way, besides a second press, to clear the selection. */
    method Deselect()
      modifies this
      ensures selected == None && fullscreen == old(fullscreen)
    {
      selected := None;
    }
  }
}
