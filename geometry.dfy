/**
 * The geometry classifier of the D-pad: the circle membership test used for the
 * outer ring and the centre button, and the mapping from a touch angle to one of
 * the four directional wedges.
 *
 * Pixel coordinates and radii are `Float` in the widget; they are modelled as
 * `real`. The one radius that can leave the finite reals (the centre-circle
 * radius, obtained by dividing by a configuration value) is an `Extended`.
 */
module Geometry {
  import opened Wrappers

  /** The five zones of the pad (`DPadView.Direction`). */
  datatype Direction = Up | Down | Left | Right | Center

  /** A float value that may be +infinity or NaN, as a float division can produce. */
  datatype Extended = Finite(value: real) | PosInfinity | NaN

  function Abs(v: real): (r: real)
    ensures r >= 0.0 && (r == v || r == -v)
  {
    if v < 0.0 then -v else v
  }

  /** The float subtraction `e - k` for a finite `k`. */
  function Minus(e: Extended, k: real): (r: Extended)
    ensures r.Finite? <==> e.Finite?
    ensures e.Finite? ==> r.value + k == e.value
  {
    match e
    case Finite(v) => Finite(v - k)
    case PosInfinity => PosInfinity
    case NaN => NaN
  }

  /** Kotlin's `Float.toInt()` on a finite value: truncation toward zero. */
  function TruncToInt(v: real): (r: int)
    ensures Abs(r as real) <= Abs(v) < Abs(r as real) + 1.0
    ensures (v >= 0.0 ==> r >= 0) && (v <= 0.0 ==> r <= 0)
  {
    if v >= 0.0 then v.Floor else -((-v).Floor)
  }

  /**
   * `isInCircle`: reject on the bounding box, accept on the inscribed diamond,
   * otherwise compare squared distances. The centre is the integer `center`,
   * shared by both axes.
   */
  function IsInCircle(x: real, y: real, center: int, radius: real): bool
  {
    var dx := Abs(x - center as real);
    if dx > radius then false
    else
      var dy := Abs(y - center as real);
      if dy > radius then false
      else if dx + dy <= radius then true
      else dx * dx + dy * dy <= radius * radius
  }

  /**
   * The same test evaluated on a radius that may be infinite or NaN: every
   * comparison with +infinity is decided as IEEE decides it (`dx > inf` and
   * `dy > inf` are false, `dx + dy <= inf` is true), and every comparison with
   * NaN is false.
   */
  function InCircleExt(x: real, y: real, center: int, radius: Extended): bool
  {
    match radius
    case Finite(r) => IsInCircle(x, y, center, r)
    case PosInfinity => true
    case NaN => false
  }

  lemma SquareMono(a: real, b: real)
    requires 0.0 <= a <= b
    ensures a * a <= b * b
  {
    assert a * a <= a * b;
    assert a * b <= b * b;
  }

  lemma SquareStrictMono(a: real, b: real)
    requires 0.0 <= a < b
    ensures a * a < b * b
  {
    var d := b - a;
    assert b * b == (a + d) * (a + d) == a * a + 2.0 * a * d + d * d;
    assert d * d > 0.0;
    assert a * d >= 0.0;
  }

  /** The diamond fast path never accepts a point outside the Euclidean disc. */
  lemma DiamondInsideDisc(dx: real, dy: real, radius: real)
    requires 0.0 <= dx && 0.0 <= dy && dx + dy <= radius
    ensures dx * dx + dy * dy <= radius * radius
  {
    assert dx * dx + dy * dy <= (dx + dy) * (dx + dy);
    SquareMono(dx + dy, radius);
  }

  /** The bounding-box rejection: nothing beyond the radius on either axis is inside. */
  lemma OutsideBoxRejected(x: real, y: real, center: int, radius: real)
    requires Abs(x - center as real) > radius || Abs(y - center as real) > radius
    ensures !IsInCircle(x, y, center, radius)
  {
  }

  /**
   * For a non-negative radius the optimised test is exactly the Euclidean disc
   * (boundary included); with a negative radius no point is inside.
   */
  lemma IsInCircleIsDisc(x: real, y: real, center: int, radius: real)
    ensures radius >= 0.0 ==>
      (IsInCircle(x, y, center, radius) <==>
       (x - center as real) * (x - center as real) + (y - center as real) * (y - center as real) <= radius * radius)
    ensures radius < 0.0 ==> !IsInCircle(x, y, center, radius)
  {
    var dx, dy := Abs(x - center as real), Abs(y - center as real);
    assert dx * dx == (x - center as real) * (x - center as real);
    assert dy * dy == (y - center as real) * (y - center as real);
    if radius >= 0.0 {
      if dx > radius {
        SquareStrictMono(radius, dx);
        assert dx * dx + dy * dy > radius * radius;
      } else if dy > radius {
        SquareStrictMono(radius, dy);
        assert dx * dx + dy * dy > radius * radius;
      } else if dx + dy <= radius {
        DiamondInsideDisc(dx, dy, radius);
      }
    }
  }

  /** A circle of smaller radius about the same centre lies inside a larger one. */
  lemma IsInCircleMonotone(x: real, y: real, center: int, small: real, large: real)
    requires small <= large
    requires IsInCircle(x, y, center, small)
    ensures IsInCircle(x, y, center, large)
  {
    IsInCircleIsDisc(x, y, center, small);
    IsInCircleIsDisc(x, y, center, large);
    SquareMono(small, large);
  }

  /** The normalisation of the `atan2` degrees: a negative angle is shifted by one turn. */
  function NormalizeDegrees(deg: real): (r: real)
    ensures r >= 0.0 || deg < -360.0
    ensures -360.0 <= deg < 360.0 ==> 0.0 <= r < 360.0
    ensures r == deg || r - deg == 360.0
  {
    if deg < 0.0 then deg + 360.0 else deg
  }

  /**
   * The wedge a touch angle falls in: the normalised degrees are compared against
   * the half-open intervals in the order RIGHT, DOWN, LEFT, UP. Exactly 315
   * degrees matches no interval and gives no direction.
   *
   * Screen y grows downwards, so an `atan2` result of 90 degrees is straight
   * down. On the range of `atan2` the wedges are stated on the raw angle below.
   */
  function Sector(deg: real): (r: Option<Direction>)
    ensures r != Some(Center)
    ensures -180.0 <= deg <= 180.0 ==>
      (r == Some(Right) <==> -45.0 < deg <= 45.0) &&
      (r == Some(Down) <==> 45.0 < deg <= 135.0) &&
      (r == Some(Left) <==> 135.0 < deg || deg <= -135.0) &&
      (r == Some(Up) <==> -135.0 < deg < -45.0) &&
      (r == None <==> deg == -45.0)
  {
    var d := NormalizeDegrees(deg);
    if d > 315.0 || d <= 45.0 then Some(Right)
    else if d > 45.0 && d <= 135.0 then Some(Down)
    else if d > 135.0 && d <= 225.0 then Some(Left)
    else if d > 225.0 && d < 315.0 then Some(Up)
    else None
  }

  /**
   * On normalised angles the four wedges are (315,360) u [0,45], (45,135],
   * (135,225] and (225,315); they are pairwise disjoint and leave out exactly 315.
   */
  lemma SectorPartition(d: real)
    requires 0.0 <= d < 360.0
    ensures Sector(d) == Some(Right) <==> (315.0 < d || d <= 45.0)
    ensures Sector(d) == Some(Down) <==> (45.0 < d <= 135.0)
    ensures Sector(d) == Some(Left) <==> (135.0 < d <= 225.0)
    ensures Sector(d) == Some(Up) <==> (225.0 < d < 315.0)
    ensures Sector(d) == None <==> d == 315.0
  {
  }

  /** An angle and the same angle one turn lower lie in the same wedge. */
  lemma SectorTurnInvariant(deg: real)
    requires -180.0 <= deg < 0.0
    ensures Sector(deg) == Sector(deg + 360.0)
  {
  }
}
