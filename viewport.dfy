/**
 * Pan and pinch-zoom over a floor map drawn in a fixed reference rectangle.
 *
 * The visible part of the map is the rectangle `(x, y, w, w * aspect)` in
 * map units: its origin and width change, its aspect ratio never does. The
 * rectangle is what the SVG `viewBox` attribute holds (min-x, min-y, width,
 * height; section 7.7 of SVG 1.1). A gesture snapshots the origin (and, for a
 * pinch, the width) when it starts, moves the rectangle relative to that
 * snapshot while it runs and clamps the origin into the map when it ends.
 * Arithmetic is over exact reals.
 */
module Viewport {
  import opened Wrappers

  /** The reference rectangle the map and seat coordinates are drawn in. */
  datatype Frame = Frame(width: real, height: real)

  predicate ValidFrame(f: Frame) {
    f.width > 0.0 && f.height > 0.0
  }

  function Aspect(f: Frame): (a: real)
    requires ValidFrame(f)
    ensures a > 0.0
  {
    f.height / f.width
  }

  const MinZoom: real := 1.0
  const MaxZoom: real := 4.0

  /** The narrowest visible width, at the largest zoom. */
  function MinWidth(f: Frame): real {
    f.width / MaxZoom
  }

  /** The widest visible width, at the smallest zoom. */
  function MaxWidth(f: Frame): real {
    f.width / MinZoom
  }

  /**
   * The animated values `viewBoxXAnim`, `viewBoxYAnim`, `viewBoxWidthAnim`
   * and the gesture snapshots `lastX`, `lastY`, `lastW`.
   */
  datatype View = View(x: real, y: real, w: real, lastX: real, lastY: real, lastW: real)

  /** The rectangle the on-screen map is drawn in, in pixels. */
  datatype Surface = Surface(width: real, height: real)

  predicate ValidSurface(s: Surface) {
    s.width > 0.0 && s.height > 0.0
  }

  /** The width is always a zoom of the whole map between 1x and 4x. */
  ghost predicate ZoomInRange(f: Frame, v: View) {
    MinWidth(f) <= v.w <= MaxWidth(f) && MinWidth(f) <= v.lastW <= MaxWidth(f)
  }

  /** The whole map in view. */
  function Initial(f: Frame): (v: View)
    requires ValidFrame(f)
    ensures ZoomInRange(f, v)
    ensures v.x == 0.0 && v.y == 0.0 && v.w == f.width
  {
    View(0.0, 0.0, f.width, 0.0, 0.0, f.width)
  }

  /** The four numbers of the `viewBox` attribute. */
  datatype ViewBox = ViewBox(minX: real, minY: real, width: real, height: real)

  /** The `viewBox` of a view: its height always follows the width by the aspect ratio. */
  function ViewBoxOf(f: Frame, v: View): (b: ViewBox)
    requires ValidFrame(f)
    ensures b.minX == v.x && b.minY == v.y && b.width == v.w
    ensures b.height == v.w * Aspect(f)
    ensures b.width * f.height == b.height * f.width
  {
    var b := ViewBox(v.x, v.y, v.w, v.w * Aspect(f));
    assert b.height * f.width == v.w * (f.height / f.width * f.width);
    b
  }

  /** The view's box has positive width and height, as the `viewBox` attribute needs to render. */
  lemma ViewBoxPositive(f: Frame, v: View)
    requires ValidFrame(f) && ZoomInRange(f, v)
    ensures ViewBoxOf(f, v).width > 0.0 && ViewBoxOf(f, v).height > 0.0
  {
    assert v.w > 0.0;
    assert v.w * Aspect(f) > 0.0;
  }

  /** `Math.max(lo, Math.min(v, hi))`. */
  function Clamp(v: real, lo: real, hi: real): (c: real)
    ensures lo <= hi ==> lo <= c <= hi
    ensures lo <= v <= hi ==> c == v
    ensures c == (if v < hi then v else hi) || c == lo
  {
    var m := if v < hi then v else hi;
    if lo > m then lo else m
  }

  /**
   * `clampPosition`: keeps the origin so that the visible rectangle stays
   * inside the map; the width is not touched.
   */
  function ClampPosition(f: Frame, v: View): (r: View)
    requires ValidFrame(f)
    ensures r == v.(x := r.x, y := r.y)
    ensures r.x == Clamp(v.x, 0.0, f.width - v.w)
    ensures r.y == Clamp(v.y, 0.0, f.height - v.w * Aspect(f))
  {
    v.(x := Clamp(v.x, 0.0, f.width - v.w), y := Clamp(v.y, 0.0, f.height - v.w * Aspect(f)))
  }

  /** A view no wider than the map has a box no taller than the map. */
  lemma HeightFits(f: Frame, w: real)
    requires ValidFrame(f) && w <= f.width
    ensures w * Aspect(f) <= f.height
  {
    var a := Aspect(f);
    assert w * a <= f.width * a;
    assert f.width * a == f.height;
  }

  /** After clamping, the visible rectangle lies inside the map. */
  lemma ClampPositionBounds(f: Frame, v: View)
    requires ValidFrame(f) && v.w <= f.width
    ensures var r := ClampPosition(f, v);
      && 0.0 <= r.x <= f.width - v.w
      && 0.0 <= r.y <= f.height - v.w * Aspect(f)
  {
    HeightFits(f, v.w);
  }

  /** Clamping leaves an origin already in range unchanged, and so is idempotent. */
  lemma ClampPositionStable(f: Frame, v: View)
    requires ValidFrame(f) && v.w <= f.width
    ensures (0.0 <= v.x <= f.width - v.w && 0.0 <= v.y <= f.height - v.w * Aspect(f))
      ==> ClampPosition(f, v) == v
    ensures ClampPosition(f, ClampPosition(f, v)) == ClampPosition(f, v)
  {
    ClampPositionBounds(f, v);
  }

  /** A pinch starts: the origin and width are snapshot. */
  function PinchStart(v: View): (r: View)
    ensures r.lastX == v.x && r.lastY == v.y && r.lastW == v.w
    ensures r == v.(lastX := r.lastX, lastY := r.lastY, lastW := r.lastW)
  {
    v.(lastX := v.x, lastY := v.y, lastW := v.w)
  }

  /** A pan starts: only the origin is snapshot; the width snapshot is kept. */
  function PanStart(v: View): (r: View)
    ensures r.lastX == v.x && r.lastY == v.y && r.lastW == v.lastW
    ensures r == v.(lastX := r.lastX, lastY := r.lastY)
  {
    v.(lastX := v.x, lastY := v.y)
  }

  /**
   * A pinch update with the gesture's scale and focal point (in pixels): the
   * width becomes the snapshot width divided by the scale, clamped to
   * [W/4, W], and the origin moves so that the map point under the focal
   * point stays under it.
   */
  function PinchUpdate(f: Frame, s: Surface, v: View, scale: real, focalX: real, focalY: real): (r: View)
    requires ValidFrame(f) && ValidSurface(s) && scale > 0.0
    ensures r.w == Clamp(v.lastW / scale, MinWidth(f), MaxWidth(f))
    ensures MinWidth(f) <= r.w <= MaxWidth(f)
    ensures v.lastX + (focalX / s.width) * v.lastW == r.x + (focalX / s.width) * r.w
    ensures v.lastY + (focalY / s.height) * (v.lastW * Aspect(f))
         == r.y + (focalY / s.height) * (r.w * Aspect(f))
    ensures r == v.(x := r.x, y := r.y, w := r.w)
  {
    var newW := Clamp(v.lastW / scale, MinWidth(f), MaxWidth(f));
    var oldH := v.lastW * Aspect(f);
    var newH := newW * Aspect(f);
    var ratioX := focalX / s.width;
    var ratioY := focalY / s.height;
    var mapX := v.lastX + ratioX * v.lastW;
    var mapY := v.lastY + ratioY * oldH;
    v.(w := newW, x := mapX - ratioX * newW, y := mapY - ratioY * newH)
  }

  /**
   * A pan update with the gesture's translation (in pixels): the origin moves
   * against it by the current map-units-per-pixel ratio, the same on both
   * axes; the width does not change.
   */
  function PanUpdate(s: Surface, v: View, translationX: real, translationY: real): (r: View)
    requires ValidSurface(s)
    ensures r.x == v.lastX - translationX * (v.w / s.width)
    ensures r.y == v.lastY - translationY * (v.w / s.width)
    ensures r == v.(x := r.x, y := r.y)
  {
    var ratio := v.w / s.width;
    v.(x := v.lastX - translationX * ratio, y := v.lastY - translationY * ratio)
  }

  /** Every gesture ending clamps the origin. */
  function GestureEnd(f: Frame, v: View): (r: View)
    requires ValidFrame(f)
    ensures ZoomInRange(f, v) ==> ZoomInRange(f, r)
    ensures r == ClampPosition(f, v)
  {
    ClampPosition(f, v)
  }

  /** Every step keeps the zoom between 1x and 4x. */
  lemma StepsKeepZoom(f: Frame, s: Surface, v: View, scale: real, fx: real, fy: real, tx: real, ty: real)
    requires ValidFrame(f) && ValidSurface(s) && ZoomInRange(f, v) && scale > 0.0
    ensures ZoomInRange(f, PinchStart(v))
    ensures ZoomInRange(f, PanStart(v))
    ensures ZoomInRange(f, PinchUpdate(f, s, v, scale, fx, fy))
    ensures ZoomInRange(f, PanUpdate(s, v, tx, ty))
    ensures ZoomInRange(f, GestureEnd(f, v))
  {
  }

  /**
   * Updates do not clamp: a pan can drag the origin off the map, and only the
   * gesture's end brings it back.
   */
  lemma PanLeavesMapUntilEnd(f: Frame, s: Surface)
    requires ValidFrame(f) && ValidSurface(s)
    ensures var v := PanUpdate(s, PanStart(Initial(f)), s.width, 0.0);
      && v.x < 0.0
      && GestureEnd(f, v).x == 0.0
  {
    var v := PanUpdate(s, PanStart(Initial(f)), s.width, 0.0);
    assert s.width * (f.width / s.width) == f.width;
    assert v.x == -f.width;
  }

  /**
   * A pan started while a pinch runs replaces the pinch's origin snapshot,
   * so the pinch's next update anchors on the pan's start point, with the
   * width the pinch snapshot.
   */
  lemma PanStartReanchorsPinch(f: Frame, s: Surface, v: View, scale: real, fx: real, fy: real)
    requires ValidFrame(f) && ValidSurface(s) && scale > 0.0
    ensures var p := PinchStart(v);
      var q := PanStart(p.(x := p.x + 1.0));
      var r := PinchUpdate(f, s, q, scale, fx, fy);
      && q.lastX == v.x + 1.0 && q.lastW == v.w
      && v.x + 1.0 + (fx / s.width) * v.w == r.x + (fx / s.width) * r.w
  {
  }

  /**
   * The drawn height: 250 in compact mode, else the given height unless it
   * is absent or zero, else the width scaled by the aspect ratio.
   */
  function SvgHeight(f: Frame, width: real, height: Option<real>, compact: bool): (h: real)
    requires ValidFrame(f)
    ensures compact ==> h == 250.0
    ensures !compact && height.Some? && height.value != 0.0 ==> h == height.value
    ensures !compact && (height.None? || height.value == 0.0) ==> h * f.width == width * f.height
  {
    if compact then 250.0
    else if height.Some? && height.value != 0.0 then height.value
    else
      assert width * Aspect(f) * f.width == width * (f.height / f.width * f.width);
      width * Aspect(f)
  }
}
