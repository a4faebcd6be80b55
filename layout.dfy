/**
 * The layout arithmetic of the widget: the forced-square measure, the
 * centre-circle radius recomputed on every draw, and the bounds of the centre
 * icon in integer pixels.
 */
module Layout {
  import opened Geometry

  /** `centerIconSizeMode`: wrap the drawable's intrinsic size or use a fixed size. */
  datatype IconSizeMode = Wrap | Fixed

  /** An integer rectangle (`android.graphics.Rect`). */
  datatype Rect = Rect(left: int, top: int, right: int, bottom: int)

  /** The side of the square the widget forces itself into: the smaller measured dimension. */
  function SquareSide(measuredWidth: nat, measuredHeight: nat): (side: nat)
    ensures side <= measuredWidth && side <= measuredHeight
    ensures side == measuredWidth || side == measuredHeight
  {
    if measuredWidth <= measuredHeight then measuredWidth else measuredHeight
  }

  /** `size.toFloat() / 2`: the centre of the square on both axes. */
  function CircleCenter(size: nat): (c: real)
    ensures c >= 0.0 && c + c == size as real
  {
    size as real / 2.0
  }

  /**
   * `size / centerCircleRatio` in float arithmetic. Nothing validates the
   * ratio: zero gives +infinity for a non-empty square and NaN (0/0) for an
   * empty one, and a negative ratio gives a non-positive radius.
   */
  function CenterCircleRadius(size: nat, ratio: real): (r: Extended)
    ensures ratio != 0.0 ==> r.Finite? && r.value * ratio == size as real
    ensures ratio == 0.0 ==> (r == PosInfinity <==> size > 0) && (r == NaN <==> size == 0)
  {
    if ratio != 0.0 then Finite(size as real / ratio)
    else if size > 0 then PosInfinity
    else NaN
  }

  /**
   * The centre circle fits in the pad (`radius <= size / 2`) exactly when the
   * ratio is at least 2; the default 3.5 does, but a ratio between 0 and 2 is
   * accepted as well and gives a centre circle larger than the pad.
   */
  lemma CenterCircleFitsIff(size: nat, ratio: real)
    requires size > 0 && ratio > 0.0
    ensures CenterCircleRadius(size, ratio).Finite?
    ensures 0.0 < CenterCircleRadius(size, ratio).value
    ensures CenterCircleRadius(size, ratio).value <= CircleCenter(size) <==> ratio >= 2.0
  {
    var s, v := size as real, CenterCircleRadius(size, ratio).value;
    assert v * ratio == s;
    if ratio >= 2.0 {
      assert v * ratio >= v * 2.0;
    } else {
      assert v * ratio < v * 2.0;
    }
  }

  /** Kotlin's `Int / 2`, which truncates toward zero (a drawable with no intrinsic size reports -1). */
  function HalfOf(a: int): (h: int)
    ensures a >= 0 ==> 0 <= a - 2 * h <= 1
    ensures a < 0 ==> 0 <= 2 * h - a <= 1
  {
    if a >= 0 then a / 2 else -((-a) / 2)
  }

  /** A rectangle centred on `(c, c)` with the given half-extents. */
  function CenteredRect(c: int, halfWidth: int, halfHeight: int): Rect
  {
    Rect(c - halfWidth, c - halfHeight, c + halfWidth, c + halfHeight)
  }

  /**
   * The bounds given to the centre icon: centred on the truncated circle centre,
   * with half-extents half the drawable's intrinsic size (WRAP) or half the
   * truncated `centerIconSize` on both axes (FIXED).
   */
  function IconRect(circleCenter: real, mode: IconSizeMode, intrinsicWidth: int, intrinsicHeight: int,
                    iconSize: real): (r: Rect)
    ensures r.left + r.right == 2 * TruncToInt(circleCenter)
    ensures r.top + r.bottom == 2 * TruncToInt(circleCenter)
    ensures mode == Wrap ==>
      r.right - r.left == 2 * HalfOf(intrinsicWidth) && r.bottom - r.top == 2 * HalfOf(intrinsicHeight)
    ensures mode == Fixed ==>
      r.right - r.left == r.bottom - r.top == 2 * HalfOf(TruncToInt(iconSize))
  {
    var c := TruncToInt(circleCenter);
    if mode == Wrap then
      CenteredRect(c, HalfOf(intrinsicWidth), HalfOf(intrinsicHeight))
    else
      var half := HalfOf(TruncToInt(iconSize));
      CenteredRect(c, half, half)
  }

  /**
   * In WRAP mode a drawable of non-negative intrinsic size gets a rectangle of
   * that size, rounded down to an even number of pixels on each axis.
   */
  lemma WrapRectSize(circleCenter: real, intrinsicWidth: nat, intrinsicHeight: nat, iconSize: real)
    ensures var r := IconRect(circleCenter, Wrap, intrinsicWidth, intrinsicHeight, iconSize);
      intrinsicWidth - 1 <= r.right - r.left <= intrinsicWidth &&
      intrinsicHeight - 1 <= r.bottom - r.top <= intrinsicHeight &&
      (r.right - r.left) % 2 == 0 && (r.bottom - r.top) % 2 == 0
  {
    var r := IconRect(circleCenter, Wrap, intrinsicWidth, intrinsicHeight, iconSize);
    assert r.right - r.left == 2 * HalfOf(intrinsicWidth);
    assert r.bottom - r.top == 2 * HalfOf(intrinsicHeight);
  }

  /** A drawable without an intrinsic size (-1 by -1) in WRAP mode gets an empty rectangle at the centre. */
  lemma WrapWithoutIntrinsicSize(circleCenter: real, iconSize: real)
    ensures var c := TruncToInt(circleCenter);
      IconRect(circleCenter, Wrap, -1, -1, iconSize) == Rect(c, c, c, c)
  {
  }
}
