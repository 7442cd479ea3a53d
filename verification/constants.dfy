/** Responsive breakpoints and the two helpers that derive behaviour from
    the viewport width: the marquee speed multiplier and the switch that
    enables the cursor image trail. Widths are JavaScript numbers, modelled
    as reals. */
module Constants {

  // BREAKPOINTS, in pixels
  const Mobile: real := 480.0
  const Tablet: real := 768.0
  const Laptop: real := 992.0
  const Desktop: real := 1200.0

  // IMAGE_TRAIL_CONFIG
  const TrailStopDurationMs: nat := 300
  const TrailLength: nat := 5
  const TrailMoveDistance: nat := 15
  const TrailMinWidth: real := 992.0
  const TrailCleanupIntervalMs: nat := 100

  // MARQUEE_CONFIG.speedMultipliers
  const MobileSpeed: real := 0.25
  const TabletSpeed: real := 0.5
  const DesktopSpeed: real := 1.0

  /** `getSpeedMultiplier`: the marquee runs at a quarter speed below the
      mobile breakpoint, at half speed up to the laptop breakpoint, and at
      full speed from there on. */
  function SpeedMultiplier(width: real): (m: real)
    ensures m == MobileSpeed <==> width < Mobile
    ensures m == TabletSpeed <==> Mobile <= width < Laptop
    ensures m == DesktopSpeed <==> Laptop <= width
  {
    if width < Mobile then MobileSpeed
    else if width < Laptop then TabletSpeed
    else DesktopSpeed
  }

  /** A wider viewport never gets a slower marquee. */
  lemma SpeedMultiplierMonotone(w1: real, w2: real)
    requires w1 <= w2
    ensures SpeedMultiplier(w1) <= SpeedMultiplier(w2)
  {
  }

  /** `shouldEnableImageTrail`: only in a browser (`hasWindow`) whose inner
      width reaches the trail's minimum width. */
  function ShouldEnableImageTrail(hasWindow: bool, innerWidth: real): (b: bool)
    ensures b ==> hasWindow
    ensures hasWindow ==> (b <==> Laptop <= innerWidth)
  {
    hasWindow && innerWidth >= TrailMinWidth
  }

  /** The trail threshold is the laptop breakpoint, so in a browser the trail
      is on exactly when the marquee runs at full speed. */
  lemma TrailOnExactlyAtFullSpeed(w: real)
    ensures ShouldEnableImageTrail(true, w) <==> SpeedMultiplier(w) == DesktopSpeed
  {
  }

  /** The breakpoints are strictly increasing. */
  lemma BreakpointsOrdered()
    ensures Mobile < Tablet < Laptop < Desktop
    ensures TrailMinWidth == Laptop
  {
  }
}
