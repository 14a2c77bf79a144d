/**
  Plane geometry the drawer reads from its surrounding layout: points,
  rectangles with CoreGraphics' hit-test semantics, and the handful of view
  measurements from which the drag distance is derived.
 */
module Geometry {

  datatype Point = Point(x: real, y: real)

  function Min(a: real, b: real): real { if a <= b then a else b }

  function Max(a: real, b: real): real { if a <= b then b else a }

  /** A rectangle given by origin and size. A negative size extends to the
      left or upwards; the queries below work on the standardised rectangle,
      as CoreGraphics does. */
  datatype Rect = Rect(x: real, y: real, width: real, height: real) {

    function MinX(): real { Min(x, x + width) }
    function MaxX(): real { Max(x, x + width) }
    function MinY(): real { Min(y, y + height) }
    function MaxY(): real { Max(y, y + height) }

    /** `contains(_:)`: the half-open box [minX, maxX) x [minY, maxY). */
    predicate Contains(p: Point) {
      MinX() <= p.x < MaxX() && MinY() <= p.y < MaxY()
    }

    /** `insetBy(dx: -d, dy: -d)` for d >= 0: the standardised rectangle
        pushed out by d on each of its four sides. */
    function Outset(d: real): (r: Rect)
      requires d >= 0.0
      ensures r.MinX() == MinX() - d && r.MaxX() == MaxX() + d
      ensures r.MinY() == MinY() - d && r.MaxY() == MaxY() + d
    {
      Rect(MinX() - d, MinY() - d, MaxX() - MinX() + 2.0 * d, MaxY() - MinY() + 2.0 * d)
    }
  }

  /** Growing a rectangle never loses a point it contained. */
  lemma OutsetKeepsPoints(r: Rect, d: real, p: Point)
    requires d >= 0.0 && r.Contains(p)
    ensures r.Outset(d).Contains(p)
  {
  }

  /** A point lies in the grown rectangle exactly when it is less than d away
      from the original on each axis (on the far sides) or at most d (on the
      near sides). */
  lemma OutsetContainsIff(r: Rect, d: real, p: Point)
    requires d >= 0.0
    ensures r.Outset(d).Contains(p) <==>
              r.MinX() - d <= p.x < r.MaxX() + d && r.MinY() - d <= p.y < r.MaxY() + d
  {
  }

  /** The measurements of the player's view and of the tab bar that the
      transition reads: the view's height, its bottom safe-area inset, the
      mini player's height, the tab bar's height and the height of the
      container that holds the tab bar. */
  datatype Metrics = Metrics(
    viewHeight: real,
    safeAreaBottom: real,
    miniPlayerHeight: real,
    tabBarHeight: real,
    tabBarContainerHeight: real)

  /** `totalAnimationDistance`: how far the panel travels between its open
      and its closed position. */
  function TotalAnimationDistance(m: Metrics): (d: real)
    ensures d + m.safeAreaBottom + m.miniPlayerHeight == m.viewHeight
    ensures m.safeAreaBottom >= 0.0 && m.miniPlayerHeight >= 0.0 ==> d <= m.viewHeight
  {
    m.viewHeight - m.safeAreaBottom - m.miniPlayerHeight
  }
}
