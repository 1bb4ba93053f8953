/**
 * The older all-in-one chair map (frontend/src/components/InteractiveMap.tsx):
 * a fixed demo chair list on a 2292 x 2025 drawing, presses that ignore
 * occupied chairs, and a viewport driven by gesture-handler events that
 * carry a recogniser state.
 */
module LegacyInteractiveMap {
  import opened Wrappers
  import opened ChairMap
  import V = Viewport

  const LegacyFrame: V.Frame := V.Frame(2292.0, 2025.0)

  const Chairs: seq<Chair> := [
    Chair("chair1", 0.25, 0.25, true, false, Some("A1")),
    Chair("chair2", 0.5, 0.4, false, false, Some("A2")),
    Chair("chair3", 0.75, 0.6, true, false, Some("A3")),
    Chair("chair4", 0.3, 0.5, true, true, Some("B1")),
    Chair("chair5", 0.6, 0.7, false, false, Some("B2"))
  ]

  /** The header shows four available chairs, two of them with a plug. */
  lemma DemoCounts()
    ensures AvailableCount(Chairs) == 4 && PlugCount(Chairs) == 2
  {
    assert Chairs[1..][1..][1..][1..][1..] == [];
  }

  /** A press on an occupied chair is ignored; any other toggles the selection. */
  function PressChair(prev: Option<string>, c: Chair): (r: Option<string>)
    ensures c.occupied ==> r == prev
    ensures !c.occupied ==> r == Toggle(prev, c.id)
  {
    if c.occupied then prev else Toggle(prev, c.id)
  }

  /** An occupied chair can never become selected by a press. */
  lemma OccupiedNeverSelected(prev: Option<string>, c: Chair)
    requires c.occupied && prev != Some(c.id)
    ensures PressChair(prev, c) != Some(c.id)
  {
  }

  datatype Stroke = SelectedStroke | PlugStroke | NoStroke

  /** The outline: selected first, then a plug, else none. */
  function StrokeOf(c: Chair, selected: bool): (s: Stroke)
    ensures s == SelectedStroke <==> selected
    ensures s == PlugStroke <==> !selected && c.hasPlug
  {
    if selected then SelectedStroke else if c.hasPlug then PlugStroke else NoStroke
  }

  /** Occupied chairs are drawn at 0.6 opacity. */
  function Opacity(c: Chair): (o: real)
    ensures o == 0.6 <==> c.occupied
    ensures o == 1.0 <==> !c.occupied
  {
    if c.occupied then 0.6 else 1.0
  }

  /** The recogniser states a gesture-handler event reports. */
  datatype GestureState = Undetermined | Failed | Began | Cancelled | Active | End

  predicate Ends(s: GestureState) {
    s == End || s == Cancelled
  }

  /** `onPinchGesture`: only an ACTIVE event moves the view. */
  function OnPinchGesture(s: V.Surface, v: V.View, state: GestureState, scale: real, fx: real, fy: real): (r: V.View)
    requires V.ValidSurface(s) && scale > 0.0
    ensures state != Active ==> r == v
    ensures state == Active ==> r == V.PinchUpdate(LegacyFrame, s, v, scale, fx, fy)
  {
    if state == Active then V.PinchUpdate(LegacyFrame, s, v, scale, fx, fy) else v
  }

  /** `onPinchStateChange`: BEGAN snapshots origin and width, END or CANCELLED clamps. */
  function OnPinchStateChange(v: V.View, state: GestureState): (r: V.View)
    ensures state == Began ==> r == V.PinchStart(v)
    ensures Ends(state) ==> r == V.GestureEnd(LegacyFrame, v)
    ensures state != Began && !Ends(state) ==> r == v
  {
    if state == Began then V.PinchStart(v)
    else if Ends(state) then V.GestureEnd(LegacyFrame, v)
    else v
  }

  /** `onPanGesture`: only an ACTIVE event moves the view. */
  function OnPanGesture(s: V.Surface, v: V.View, state: GestureState, tx: real, ty: real): (r: V.View)
    requires V.ValidSurface(s)
    ensures state != Active ==> r == v
    ensures state == Active ==> r == V.PanUpdate(s, v, tx, ty)
  {
    if state == Active then V.PanUpdate(s, v, tx, ty) else v
  }

  /** `onPanStateChange`: BEGAN snapshots the origin only, END or CANCELLED clamps. */
  function OnPanStateChange(v: V.View, state: GestureState): (r: V.View)
    ensures state == Began ==> r == V.PanStart(v)
    ensures Ends(state) ==> r == V.GestureEnd(LegacyFrame, v)
    ensures state != Began && !Ends(state) ==> r == v
  {
    if state == Began then V.PanStart(v)
    else if Ends(state) then V.GestureEnd(LegacyFrame, v)
    else v
  }

  /** After a gesture ends, the visible rectangle lies inside the drawing. */
  lemma EndClampsIntoDrawing(v: V.View, state: GestureState)
    requires Ends(state) && V.ZoomInRange(LegacyFrame, v)
    ensures var r := OnPanStateChange(v, state);
      && 0.0 <= r.x <= 2292.0 - r.w
      && 0.0 <= r.y <= 2025.0 - r.w * V.Aspect(LegacyFrame)
  {
    V.ClampPositionBounds(LegacyFrame, v);
  }

  /**
   * The viewport of the full map. The compact preview attaches no gesture
   * handlers and is always 250 high, so the handlers require a full map.
   */
  class GestureViewport {
    const surface: V.Surface
    const compact: bool
    var view: V.View

    ghost predicate Valid()
      reads this
    {
      V.ValidSurface(surface) && V.ZoomInRange(LegacyFrame, view)
    }

    constructor (width: real, height: Option<real>, compact: bool)
      requires width > 0.0 && (height.None? || height.value >= 0.0)
      ensures Valid() && this.compact == compact && view == V.Initial(LegacyFrame)
      ensures surface.height == V.SvgHeight(LegacyFrame, width, height, compact)
      ensures compact ==> surface.height == 250.0
    {
      var h := V.SvgHeight(LegacyFrame, width, height, compact);
      assert h > 0.0 by {
        if !compact && (height.None? || height.value == 0.0) {
          assert h * 2292.0 == width * 2025.0;
        }
      }
      surface := V.Surface(width, h);
      this.compact := compact;
      view := V.Initial(LegacyFrame);
    }

    method PinchGesture(state: GestureState, scale: real, fx: real, fy: real)
      requires Valid() && !compact && scale > 0.0
      modifies this
      ensures Valid() && view == OnPinchGesture(surface, old(view), state, scale, fx, fy)
    {
      if state == Active {
        view := V.PinchUpdate(LegacyFrame, surface, view, scale, fx, fy);
      }
    }

    method PinchStateChange(state: GestureState)
      requires Valid() && !compact
      modifies this
      ensures Valid() && view == OnPinchStateChange(old(view), state)
    {
      if state == Began {
        view := view.(lastX := view.x, lastY := view.y, lastW := view.w);
      }
      if Ends(state) {
        view := V.ClampPosition(LegacyFrame, view);
      }
    }

    method PanGesture(state: GestureState, tx: real, ty: real)
      requires Valid() && !compact
      modifies this
      ensures Valid() && view == OnPanGesture(surface, old(view), state, tx, ty)
    {
      if state == Active {
        var ratio := view.w / surface.width;
        view := view.(x := view.lastX - tx * ratio, y := view.lastY - ty * ratio);
      }
    }

    method PanStateChange(state: GestureState)
      requires Valid() && !compact
      modifies this
      ensures Valid() && view == OnPanStateChange(old(view), state)
    {
      if state == Began {
        view := view.(lastX := view.x, lastY := view.y);
      }
      if Ends(state) {
        view := V.ClampPosition(LegacyFrame, view);
      }
    }
  }
}
