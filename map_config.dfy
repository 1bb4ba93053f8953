/** Shared constants of the floor-map components (frontend/src/components/map/MapConfig.ts). */
module MapConfig {
  import Viewport

  /** The reference rectangle of the current map components: 2400 x 1500. */
  const MapFrame: Viewport.Frame := Viewport.Frame(2400.0, 1500.0)

  /** The radius of a seat marker, in map units. */
  const SeatRadius: real := 40.0
}
