/**
 * How one seat is drawn on the floor map (frontend/src/components/map/SeatMarker.tsx):
 * the marker's centre in map units, its fill and opacity, the selection
 * halo, the seat-number label and a row of feature icons above it.
 */
module SeatMarker {
  import opened Wrappers
  import opened ApiSeat
  import ChairMap
  import MapConfig

  const IconSize: real := 18.0
  const IconSpacing: real := 6.0

  /** The distance between the centres of neighbouring icons. */
  const IconStep: real := IconSize + IconSpacing

  datatype Feature = Power | Wifi | Ac | Accessible

  /** An icon placed at `(x, y)`, the left and top of its translate. */
  datatype Icon = Icon(feature: Feature, x: real, y: real)

  datatype Label = Label(text: string, x: real, y: real)

  datatype Marker = Marker(
    cx: real, cy: real, radius: real,
    fill: ChairMap.Fill, opacity: real,
    halo: Option<real>,     // radius of the selection halo
    caption: Option<Label>,
    icons: seq<Icon>)

  /** The features a seat has, in the fixed order power, wifi, air conditioning, accessibility. */
  function FeatureIcons(s: Seat): (fs: seq<Feature>)
    ensures |fs| <= 4
    ensures Power in fs <==> s.hasPowerOutlet
    ensures Wifi in fs <==> s.hasWifi
    ensures Ac in fs <==> s.hasAc
    ensures Accessible in fs <==> s.accessibility
    ensures forall i, j :: 0 <= i < j < |fs| ==> Rank(fs[i]) < Rank(fs[j])
  {
    (if s.hasPowerOutlet then [Power] else []) +
    (if s.hasWifi then [Wifi] else []) +
    (if s.hasAc then [Ac] else []) +
    (if s.accessibility then [Accessible] else [])
  }

  function Rank(f: Feature): nat {
    match f
    case Power => 0
    case Wifi => 1
    case Ac => 2
    case Accessible => 3
  }

  /** The centre of icon `i` of `n`: spaced `IconStep` apart and centred on `cx`. */
  function IconCentre(cx: real, n: nat, i: nat): real {
    cx - ((n as real - 1.0) * IconStep) / 2.0 + i as real * IconStep
  }

  function PlaceIcons(fs: seq<Feature>, cx: real, cy: real, radius: real): (icons: seq<Icon>)
    ensures |icons| == |fs|
    ensures forall i :: 0 <= i < |fs| ==>
      icons[i] == Icon(fs[i], IconCentre(cx, |fs|, i) - IconSize / 2.0, cy - radius - IconSize - 6.0)
  {
    seq(|fs|, i requires 0 <= i < |fs| =>
      Icon(fs[i], IconCentre(cx, |fs|, i) - IconSize / 2.0, cy - radius - IconSize - 6.0))
  }

  /** The marker for a seat, selected or not. */
  function MarkerOf(s: Seat, selected: bool): (m: Marker)
    ensures m.cx == s.x * 2400.0 && m.cy == s.y * 1500.0 && m.radius == MapConfig.SeatRadius
    ensures m.fill == ChairMap.FillOf(s.status == "occupied", selected)
    ensures m.opacity == (if s.status == "occupied" then 0.6 else 1.0)
    ensures m.halo.Some? <==> selected
    ensures m.halo.Some? ==> m.halo.value == m.radius + 10.0
    ensures m.caption.Some? <==> s.seatNumber != ""
    ensures m.caption.Some? ==> m.caption.value == Label(s.seatNumber, m.cx, m.cy + m.radius + 25.0)
    ensures |m.icons| == |FeatureIcons(s)|
    ensures forall i :: 0 <= i < |m.icons| ==> m.icons[i].feature == FeatureIcons(s)[i]
  {
    var cx := s.x * 2400.0;
    var cy := s.y * 1500.0;
    var radius := MapConfig.SeatRadius;
    Marker(cx, cy, radius,
      ChairMap.FillOf(s.status == "occupied", selected),
      if s.status == "occupied" then 0.6 else 1.0,
      if selected then Some(radius + 10.0) else None,
      if s.seatNumber != "" then Some(Label(s.seatNumber, cx, cy + radius + 25.0)) else None,
      PlaceIcons(FeatureIcons(s), cx, cy, radius))
  }

  lemma PlaceIconsLayout(fs: seq<Feature>, cx: real, cy: real, radius: real)
    ensures var icons := PlaceIcons(fs, cx, cy, radius);
      var n := |icons|;
      && (forall i :: 0 <= i < n - 1 ==> icons[i + 1].x - icons[i].x == 24.0)
      && (n > 0 ==> (icons[0].x + IconSize / 2.0) + (icons[n - 1].x + IconSize / 2.0) == 2.0 * cx)
      && (forall i :: 0 <= i < n ==> icons[i].y == cy - radius - 24.0)
  {
    var icons := PlaceIcons(fs, cx, cy, radius);
    var n := |icons|;
    forall i | 0 <= i < n - 1 ensures icons[i + 1].x - icons[i].x == 24.0 {
      assert (i + 1) as real * IconStep - i as real * IconStep == IconStep;
    }
    if n > 0 {
      assert IconCentre(cx, n, 0) + IconCentre(cx, n, n - 1) == 2.0 * cx;
    }
  }

  /**
   * The icons are evenly spaced, the row is symmetric about the marker's
   * centre, and every icon sits 24 above the marker's top edge.
   */
  lemma IconLayout(s: Seat, selected: bool)
    ensures var m := MarkerOf(s, selected);
      var n := |m.icons|;
      && (forall i :: 0 <= i < n - 1 ==> m.icons[i + 1].x - m.icons[i].x == 24.0)
      && (n > 0 ==> (m.icons[0].x + IconSize / 2.0) + (m.icons[n - 1].x + IconSize / 2.0) == 2.0 * m.cx)
      && (forall i :: 0 <= i < n ==> m.icons[i].y == m.cy - m.radius - 24.0)
  {
    var m := MarkerOf(s, selected);
    PlaceIconsLayout(FeatureIcons(s), m.cx, m.cy, m.radius);
  }
}
