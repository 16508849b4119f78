/**
 * Geometry value types of the rendering layer: a 2D point that can be rotated
 * about a pivot, an axis-aligned rectangle whose Y axis grows upwards, and the
 * configuration of a text draw call.
 *
 * Arithmetic is over `real`: the model pins the sign conventions, not IEEE
 * float rounding. `sin` and `cos` of a rotation angle are passed in as `s`
 * and `c`.
 */
module Geometry {

  /** The reference font size: a text size of this many units draws glyphs at scale 1. */
  const FontDefaultSize: real := 64.0

  /** A pair of coordinates, the value that a `Point` holds. */
  datatype Vec2 = Vec2(x: real, y: real)

  /** Rotation of `p` about `pivot` by the angle whose sine is `s` and cosine is `c`. */
  function RotateAbout(p: Vec2, pivot: Vec2, s: real, c: real): (r: Vec2)
    ensures p == pivot ==> r == pivot
    ensures s == 0.0 && c == 1.0 ==> r == p
  {
    var a, b := p.x - pivot.x, p.y - pivot.y;
    assert s == 0.0 && c == 1.0 ==> a * c - b * s == a && a * s + b * c == b;
    Vec2(a * c - b * s + pivot.x, a * s + b * c + pivot.y)
  }

  /** Squared Euclidean distance, used to state that a rotation is rigid. */
  function DistSq(p: Vec2, q: Vec2): real
  {
    (q.x - p.x) * (q.x - p.x) + (q.y - p.y) * (q.y - p.y)
  }

  /** A rotation by a unit (s, c) keeps the distance of the point to the pivot. */
  lemma RotatePreservesDistance(p: Vec2, pivot: Vec2, s: real, c: real)
    requires s * s + c * c == 1.0
    ensures DistSq(pivot, RotateAbout(p, pivot, s, c)) == DistSq(pivot, p)
  {
  }

  /**
   * Two rotations about the same pivot compose into one rotation whose sine and
   * cosine follow the angle-addition formulas.
   */
  lemma RotateCompose(p: Vec2, pivot: Vec2, s1: real, c1: real, s2: real, c2: real)
    ensures RotateAbout(RotateAbout(p, pivot, s1, c1), pivot, s2, c2)
              == RotateAbout(p, pivot, s1 * c2 + c1 * s2, c1 * c2 - s1 * s2)
  {
  }

  /** A quarter turn (sin 1, cos 0) takes (1, 0) about the origin to (0, 1): the rotation is counter-clockwise. */
  lemma RotateQuarterTurn()
    ensures RotateAbout(Vec2(1.0, 0.0), Vec2(0.0, 0.0), 1.0, 0.0) == Vec2(0.0, 1.0)
  {
  }

  class Point {
    var x: real
    var y: real

    /** The default point is the origin. */
    constructor ()
      ensures x == 0.0 && y == 0.0
    {
      x := 0.0;
      y := 0.0;
    }

    constructor At(x0: real, y0: real)
      ensures x == x0 && y == y0
    {
      x := x0;
      y := y0;
    }

    /** Rotates this point in place about (cx, cy); `s` and `c` stand for sin and cos of the angle. */
    method Rotate(cx: real, cy: real, s: real, c: real)
      modifies this
      ensures Vec2(x, y) == RotateAbout(Vec2(old(x), old(y)), Vec2(cx, cy), s, c)
    {
      var originX := x;
      var originY := y;
      originX := originX - cx;
      originY := originY - cy;

      var xNew := originX * c - originY * s;
      var yNew := originX * s + originY * c;

      x := xNew + cx;
      y := yNew + cy;
    }
  }

  /** An axis-aligned rectangle; `top` is numerically above the bottom edge (Y grows upwards). */
  datatype Rect = Rect(left: real, top: real, width: real, height: real)
  {
    function Right(): (r: real)
      ensures r - left == width
      ensures width >= 0.0 ==> left <= r
    {
      left + width
    }

    function Bottom(): (r: real)
      ensures top - r == height
      ensures height >= 0.0 ==> r <= top
    {
      top - height
    }

    /** The centre as a new point; it lies inside the rectangle whenever its sizes are non-negative. */
    method Center() returns (p: Point)
      ensures fresh(p)
      ensures p.x == (left + Right()) / 2.0 && p.y == (Bottom() + top) / 2.0
      ensures width >= 0.0 ==> left <= p.x <= Right()
      ensures height >= 0.0 ==> Bottom() <= p.y <= top
      ensures p.x - left == Right() - p.x && top - p.y == p.y - Bottom()
    {
      p := new Point();
      p.x := (left + Right()) / 2.0;
      p.y := (Bottom() + top) / 2.0;
    }
  }

  datatype TextStyle = Normal | Italic

  datatype TextGravity = Left | Center | Right

  /** An RGBA colour with components in [0, 1]. */
  datatype Color = Color(r: real, g: real, b: real, a: real)

  /** The scale that a requested text size gives, relative to the reference size. */
  function SizeScale(size: real): (scale: real)
    ensures scale * FontDefaultSize == size
    ensures size == FontDefaultSize <==> scale == 1.0
  {
    size / FontDefaultSize
  }

  /** Configuration of one text draw call. */
  class TextPaint {
    var textSizeScale: real
    var gapSize: real
    var textColor: Color
    var textStyle: TextStyle
    var textGravity: TextGravity

    /** The defaults: scale 1, a gap of 4 units, opaque white, normal style, left gravity. */
    constructor ()
      ensures textSizeScale == 1.0 && gapSize == 4.0
      ensures textColor == Color(1.0, 1.0, 1.0, 1.0)
      ensures textStyle == Normal && textGravity == Left
    {
      textSizeScale := 1.0;
      gapSize := 4.0;
      textColor := Color(1.0, 1.0, 1.0, 1.0);
      textStyle := Normal;
      textGravity := Left;
    }

    /** Sets the scale from a text size; no other field changes. */
    method SetTextSize(size: real)
      modifies this`textSizeScale
      ensures textSizeScale == SizeScale(size)
    {
      textSizeScale := size / FontDefaultSize;
    }
  }
}
