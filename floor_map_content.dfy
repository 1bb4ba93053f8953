/**
 * The zoomable floor map (frontend/src/components/map/FloorMapContent.tsx):
 * the viewport the pinch and pan callbacks update step by step, and the URL
 * the floor-plan drawing is fetched from.
 */
module FloorMapContent {
  import opened Wrappers
  import opened Strings
  import V = Viewport
  import MapConfig

  /**
   * The viewport of one mounted map. Gesture callbacks are attached only
   * outside compact mode, so they require it.
   */
  class FloorViewport {
    const surface: V.Surface
    const compact: bool
    var x: real
    var y: real
    var w: real
    var lastX: real
    var lastY: real
    var lastW: real

    ghost function State(): V.View
      reads this
    {
      V.View(x, y, w, lastX, lastY, lastW)
    }

    ghost predicate Valid()
      reads this
    {
      V.ValidSurface(surface) && V.ZoomInRange(MapConfig.MapFrame, State())
    }

    /** Mounting with the given pixel width and optional height: the whole map is in view. */
    constructor (width: real, height: Option<real>, compact: bool)
      requires width > 0.0 && (height.None? || height.value >= 0.0)
      ensures Valid() && this.compact == compact
      ensures State() == V.Initial(MapConfig.MapFrame)
      ensures surface == V.Surface(width, V.SvgHeight(MapConfig.MapFrame, width, height, compact))
    {
      var h := V.SvgHeight(MapConfig.MapFrame, width, height, compact);
      assert h > 0.0 by {
        if !compact && (height.None? || height.value == 0.0) {
          assert h * 2400.0 == width * 1500.0;
        }
      }
      surface := V.Surface(width, h);
      this.compact := compact;
      x, y, w := 0.0, 0.0, 2400.0;
      lastX, lastY, lastW := 0.0, 0.0, 2400.0;
    }

    method PinchStart()
      requires Valid() && !compact
      modifies this
      ensures Valid() && State() == V.PinchStart(old(State()))
    {
      lastX, lastY, lastW := x, y, w;
    }

    method PinchUpdate(scale: real, focalX: real, focalY: real)
      requires Valid() && !compact && scale > 0.0
      modifies this
      ensures Valid() && State() == V.PinchUpdate(MapConfig.MapFrame, surface, old(State()), scale, focalX, focalY)
    {
      ghost var r := V.PinchUpdate(MapConfig.MapFrame, surface, State(), scale, focalX, focalY);
      var newW := V.Clamp(lastW / scale, 2400.0 / V.MaxZoom, 2400.0 / V.MinZoom);
      assert newW == r.w;
      var oldH := lastW * V.Aspect(MapConfig.MapFrame);
      var newH := newW * V.Aspect(MapConfig.MapFrame);
      var ratioX := focalX / surface.width;
      var ratioY := focalY / surface.height;
      var mapX := lastX + ratioX * lastW;
      var mapY := lastY + ratioY * oldH;
      w := newW;
      x := mapX - ratioX * newW;
      y := mapY - ratioY * newH;
      assert x == r.x && y == r.y;
    }

    method PinchEnd()
      requires Valid() && !compact
      modifies this
      ensures Valid() && State() == V.GestureEnd(MapConfig.MapFrame, old(State()))
    {
      Clamp();
    }

    method PanStart()
      requires Valid() && !compact
      modifies this
      ensures Valid() && State() == V.PanStart(old(State()))
    {
      lastX, lastY := x, y;
    }

    method PanUpdate(translationX: real, translationY: real)
      requires Valid() && !compact
      modifies this
      ensures Valid() && State() == V.PanUpdate(surface, old(State()), translationX, translationY)
    {
      var ratio := w / surface.width;
      x := lastX - translationX * ratio;
      y := lastY - translationY * ratio;
    }

    method PanEnd()
      requires Valid() && !compact
      modifies this
      ensures Valid() && State() == V.GestureEnd(MapConfig.MapFrame, old(State()))
    {
      Clamp();
    }

    /** `clampPosition` on the current values; the animation's target is what is stored. */
    method Clamp()
      requires Valid()
      modifies this
      ensures Valid() && State() == V.ClampPosition(MapConfig.MapFrame, old(State()))
      ensures 0.0 <= x <= 2400.0 - w && 0.0 <= y <= 1500.0 - w * V.Aspect(MapConfig.MapFrame)
    {
      V.ClampPositionBounds(MapConfig.MapFrame, State());
      x := V.Clamp(x, 0.0, 2400.0 - w);
      y := V.Clamp(y, 0.0, 1500.0 - w * V.Aspect(MapConfig.MapFrame));
    }
  }

  /**
   * `resolveMapUrl`: a URL starting with "http" is used as it is; any other
   * path is taken relative to the API's base URL.
   */
  function ResolveMapUrl(mapUrl: string, apiBase: string): (r: string)
    ensures StartsWith(mapUrl, "http") ==> r == mapUrl
    ensures !StartsWith(mapUrl, "http") ==>
      r == apiBase + "/" + StripLeadingSlashes(mapUrl)
  {
    if StartsWith(mapUrl, "http") then mapUrl
    else apiBase + "/" + StripLeadingSlashes(mapUrl)
  }

  /** The drawing is fetched only for a non-empty map URL. */
  function MapFetchUrl(mapUrl: Option<string>, apiBase: string): (r: Option<string>)
    ensures r.None? <==> mapUrl.None? || mapUrl.value == ""
    ensures r.Some? ==> r.value == ResolveMapUrl(mapUrl.value, apiBase)
  {
    if mapUrl.None? || mapUrl.value == "" then None
    else Some(ResolveMapUrl(mapUrl.value, apiBase))
  }

  /** A relative path resolves to the base, one `/`, and the path without its leading slashes. */
  lemma ResolveRelative(path: string, apiBase: string)
    requires !StartsWith(path, "http")
    ensures var r := ResolveMapUrl(path, apiBase);
      && StartsWith(r, apiBase + "/")
      && (|r| == |apiBase| + 1 || r[|apiBase| + 1] != '/')
  {
    var r := ResolveMapUrl(path, apiBase);
    var rest := StripLeadingSlashes(path);
    assert r == (apiBase + "/") + rest;
    if rest != [] {
      assert r[|apiBase| + 1] == rest[0];
    }
  }

  /** Anything that extends an http URL starts with "http" too. */
  lemma HttpPrefixExtends(base: string, tail: string)
    requires StartsWith(base, "http")
    ensures StartsWith(base + tail, "http")
  {
    assert (base + tail)[..4] == base[..4];
  }

  /** Resolving an absolute URL again leaves it unchanged when the base is an http URL. */
  lemma ResolveIdempotent(path: string, apiBase: string)
    requires StartsWith(apiBase, "http")
    ensures ResolveMapUrl(ResolveMapUrl(path, apiBase), apiBase) == ResolveMapUrl(path, apiBase)
  {
    if !StartsWith(path, "http") {
      HttpPrefixExtends(apiBase, "/" + StripLeadingSlashes(path));
      assert apiBase + "/" + StripLeadingSlashes(path) == apiBase + ("/" + StripLeadingSlashes(path));
    }
  }
}
