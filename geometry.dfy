/**
 * Plane geometry of the oriented rectangles of the ROI processor: points,
 * the four corners of a rectangle, and the pure transforms (construction,
 * translation, rotation about the center) by which the mutable
 * `Shapes.Rectangle` class is specified.
 *
 * Coordinates are exact reals. The source keeps them in single precision and
 * takes cosine and sine of an angle; here a rotation is given directly by
 * its cosine and sine, and the lemmas that need a true rotation assume
 * cos * cos + sin * sin == 1.
 *
 * Y convention of the source: the "top" corners have the LARGER y.
 */
module Geometry {

  /** A point of the canvas (the source's `Coord`, as a value). */
  datatype Coord = Coord(x: real, y: real) {
    function Plus(d: Coord): Coord { Coord(x + d.x, y + d.y) }
    function Minus(o: Coord): Coord { Coord(x - o.x, y - o.y) }
  }

  const Origin := Coord(0.0, 0.0)

  /** Squared length of the vector p. */
  function SqNorm(p: Coord): real { p.x * p.x + p.y * p.y }

  /** Cross product of two vectors: positive when v turns left of u. */
  function Cross(u: Coord, v: Coord): real { u.x * v.y - u.y * v.x }

  /**
   * The standard 2D rotation of the vector p, as `RotateCorrner` computes it:
   * x' = x cos - y sin, y' = y cos + x sin.
   */
  function RotateCorner(p: Coord, cos: real, sin: real): Coord {
    Coord(p.x * cos - p.y * sin, p.y * cos + p.x * sin)
  }

  /**
   * Rotation scales squared lengths by cos^2 + sin^2, so a true rotation
   * keeps them.
   */
  lemma RotateCornerScales(p: Coord, cos: real, sin: real)
    ensures SqNorm(RotateCorner(p, cos, sin)) == (cos * cos + sin * sin) * SqNorm(p)
  {
    var q := RotateCorner(p, cos, sin);
    calc {
      q.x * q.x + q.y * q.y;
      p.x * p.x * (cos * cos) + p.y * p.y * (sin * sin) - 2.0 * (p.x * p.y * cos * sin)
        + p.y * p.y * (cos * cos) + p.x * p.x * (sin * sin) + 2.0 * (p.x * p.y * cos * sin);
      (cos * cos + sin * sin) * (p.x * p.x + p.y * p.y);
    }
  }

  /** The four corners of a rectangle, in the source's field order. */
  datatype Corners = Corners(topLeft: Coord, topRight: Coord, bottomLeft: Coord, bottomRight: Coord) {
    /** Every corner moved by the same delta d (`MoveCorners`). */
    function Shift(d: Coord): Corners {
      Corners(topLeft.Plus(d), topRight.Plus(d), bottomLeft.Plus(d), bottomRight.Plus(d))
    }

    /** Every corner as an offset from the point c. */
    function RelativeTo(c: Coord): Corners {
      Corners(topLeft.Minus(c), topRight.Minus(c), bottomLeft.Minus(c), bottomRight.Minus(c))
    }

    /** Every corner rotated about the origin. */
    function Turn(cos: real, sin: real): Corners {
      Corners(RotateCorner(topLeft, cos, sin), RotateCorner(topRight, cos, sin),
              RotateCorner(bottomLeft, cos, sin), RotateCorner(bottomRight, cos, sin))
    }
  }

  /** The state of one `Rectangle` object, as a value. */
  datatype Rect = Rect(height: real, width: real, rotation: real, center: Coord, corners: Corners)

  /** Each corner's offset from the center. */
  function Offsets(r: Rect): Corners { r.corners.RelativeTo(r.center) }

  /** The constructor's rectangle: axis-aligned around `origin`, rotation field 0. */
  function Build(origin: Coord, height: real, width: real): Rect {
    Rect(height, width, 0.0, origin,
         Corners(Coord(origin.x - width / 2.0, origin.y + height / 2.0),
                 Coord(origin.x + width / 2.0, origin.y + height / 2.0),
                 Coord(origin.x - width / 2.0, origin.y - height / 2.0),
                 Coord(origin.x + width / 2.0, origin.y - height / 2.0)))
  }

  /**
   * The constructed rectangle, characterised completely: the top edge runs
   * width to the right of the top-left corner, the top-left corner lies
   * height ABOVE (larger y) the bottom-left one, and the center is the
   * midpoint of both diagonals.
   */
  lemma BuildShape(origin: Coord, height: real, width: real)
    ensures var r := Build(origin, height, width);
      && r.center == origin && r.height == height && r.width == width && r.rotation == 0.0
      && r.corners.topRight.Minus(r.corners.topLeft) == Coord(width, 0.0)
      && r.corners.bottomRight.Minus(r.corners.bottomLeft) == Coord(width, 0.0)
      && r.corners.topLeft.Minus(r.corners.bottomLeft) == Coord(0.0, height)
      && r.corners.topLeft.Plus(r.corners.bottomRight) == origin.Plus(origin)
      && r.corners.topRight.Plus(r.corners.bottomLeft) == origin.Plus(origin)
  {
  }

  /** `Move(c)`: the center goes to c and every corner moves by c - center. */
  function MoveTo(r: Rect, c: Coord): (m: Rect)
    ensures m.center == c
    ensures m.height == r.height && m.width == r.width && m.rotation == r.rotation
  {
    r.(center := c, corners := r.corners.Shift(c.Minus(r.center)))
  }

  /** Moving keeps the shape: every corner's offset from the center is unchanged. */
  lemma MoveKeepsOffsets(r: Rect, c: Coord)
    ensures Offsets(MoveTo(r, c)) == Offsets(r)
  {
  }

  /**
   * `Rotate`: move to the origin, rotate every corner there, move back to
   * the saved center. The center, height, width and rotation field are kept.
   */
  function RotateAbout(r: Rect, cos: real, sin: real): (t: Rect)
    ensures t.center == r.center
    ensures t.height == r.height && t.width == r.width && t.rotation == r.rotation
  {
    var atOrigin := MoveTo(r, Origin);
    var turned := atOrigin.(corners := atOrigin.corners.Turn(cos, sin));
    MoveTo(turned, r.center)
  }

  /** Rotating turns every corner's offset from the center about the origin. */
  lemma {:induction false} RotateTurnsOffsets(r: Rect, cos: real, sin: real)
    ensures Offsets(RotateAbout(r, cos, sin)) == Offsets(r).Turn(cos, sin)
  {
    var atOrigin := MoveTo(r, Origin);
    MoveKeepsOffsets(r, Origin);
    assert atOrigin.corners == Offsets(atOrigin);
    var turned := atOrigin.(corners := atOrigin.corners.Turn(cos, sin));
    assert Offsets(turned) == turned.corners;
    MoveKeepsOffsets(turned, r.center);
  }

  /** A rectangle is fixed by its center, its offsets and its scalar fields. */
  lemma SameRect(a: Rect, b: Rect)
    requires a.height == b.height && a.width == b.width && a.rotation == b.rotation
    requires a.center == b.center && Offsets(a) == Offsets(b)
    ensures a == b
  {
    assert a.corners == Offsets(a).Shift(a.center);
    assert b.corners == Offsets(b).Shift(b.center);
  }

  /** Moving away and back again restores the rectangle. */
  lemma {:induction false} MoveRoundTrip(r: Rect, c: Coord)
    ensures MoveTo(MoveTo(r, c), r.center) == r
  {
    MoveKeepsOffsets(r, c);
    MoveKeepsOffsets(MoveTo(r, c), r.center);
    SameRect(MoveTo(MoveTo(r, c), r.center), r);
  }

  /** Rotating a vector by (cos, sin) and then by (cos, -sin) restores it. */
  lemma RotateCornerRoundTrip(p: Coord, cos: real, sin: real)
    requires cos * cos + sin * sin == 1.0
    ensures RotateCorner(RotateCorner(p, cos, sin), cos, -sin) == p
  {
    var q := RotateCorner(p, cos, sin);
    calc {
      q.x * cos - q.y * -sin;
      (p.x * cos - p.y * sin) * cos + (p.y * cos + p.x * sin) * sin;
      p.x * (cos * cos + sin * sin);
      p.x;
    }
    calc {
      q.y * cos + q.x * -sin;
      (p.y * cos + p.x * sin) * cos - (p.x * cos - p.y * sin) * sin;
      p.y * (cos * cos + sin * sin);
      p.y;
    }
  }

  /** Rotating by (cos, sin) and then by (cos, -sin) restores every corner. */
  lemma {:induction false} RotateRoundTrip(r: Rect, cos: real, sin: real)
    requires cos * cos + sin * sin == 1.0
    ensures RotateAbout(RotateAbout(r, cos, sin), cos, -sin) == r
  {
    var o := Offsets(r);
    RotateTurnsOffsets(r, cos, sin);
    RotateTurnsOffsets(RotateAbout(r, cos, sin), cos, -sin);
    RotateCornerRoundTrip(o.topLeft, cos, sin);
    RotateCornerRoundTrip(o.topRight, cos, sin);
    RotateCornerRoundTrip(o.bottomLeft, cos, sin);
    RotateCornerRoundTrip(o.bottomRight, cos, sin);
    SameRect(RotateAbout(RotateAbout(r, cos, sin), cos, -sin), r);
  }

  /** Two rotations of a vector compose by the angle-addition formulas. */
  lemma RotateCornerCompose(p: Coord, c1: real, s1: real, c2: real, s2: real)
    ensures RotateCorner(RotateCorner(p, c1, s1), c2, s2)
         == RotateCorner(p, c1 * c2 - s1 * s2, s1 * c2 + c1 * s2)
  {
    var q := RotateCorner(p, c1, s1);
    calc {
      q.x * c2 - q.y * s2;
      (p.x * c1 - p.y * s1) * c2 - (p.y * c1 + p.x * s1) * s2;
      p.x * (c1 * c2 - s1 * s2) - p.y * (s1 * c2 + c1 * s2);
    }
    calc {
      q.y * c2 + q.x * s2;
      (p.y * c1 + p.x * s1) * c2 + (p.x * c1 - p.y * s1) * s2;
      p.y * (c1 * c2 - s1 * s2) + p.x * (s1 * c2 + c1 * s2);
    }
  }

  /**
   * Rotating an already rotated rectangle composes with the earlier rotation:
   * two rotations in a row are the rotation by the summed angle.
   */
  lemma {:induction false} RotateCompose(r: Rect, c1: real, s1: real, c2: real, s2: real)
    ensures RotateAbout(RotateAbout(r, c1, s1), c2, s2)
         == RotateAbout(r, c1 * c2 - s1 * s2, s1 * c2 + c1 * s2)
  {
    var o := Offsets(r);
    RotateTurnsOffsets(r, c1, s1);
    RotateTurnsOffsets(RotateAbout(r, c1, s1), c2, s2);
    RotateTurnsOffsets(r, c1 * c2 - s1 * s2, s1 * c2 + c1 * s2);
    RotateCornerCompose(o.topLeft, c1, s1, c2, s2);
    RotateCornerCompose(o.topRight, c1, s1, c2, s2);
    RotateCornerCompose(o.bottomLeft, c1, s1, c2, s2);
    RotateCornerCompose(o.bottomRight, c1, s1, c2, s2);
    SameRect(RotateAbout(RotateAbout(r, c1, s1), c2, s2),
             RotateAbout(r, c1 * c2 - s1 * s2, s1 * c2 + c1 * s2));
  }

  /** A true rotation keeps every corner's distance from the center. */
  lemma {:induction false} RotateKeepsDistances(r: Rect, cos: real, sin: real)
    requires cos * cos + sin * sin == 1.0
    ensures var t := RotateAbout(r, cos, sin);
      && SqNorm(Offsets(t).topLeft) == SqNorm(Offsets(r).topLeft)
      && SqNorm(Offsets(t).topRight) == SqNorm(Offsets(r).topRight)
      && SqNorm(Offsets(t).bottomLeft) == SqNorm(Offsets(r).bottomLeft)
      && SqNorm(Offsets(t).bottomRight) == SqNorm(Offsets(r).bottomRight)
  {
    var o := Offsets(r);
    RotateTurnsOffsets(r, cos, sin);
    RotateCornerScales(o.topLeft, cos, sin);
    RotateCornerScales(o.topRight, cos, sin);
    RotateCornerScales(o.bottomLeft, cos, sin);
    RotateCornerScales(o.bottomRight, cos, sin);
  }

  /** Rotation is linear: it commutes with taking the difference of two points. */
  lemma RotateCornerLinear(p: Coord, q: Coord, cos: real, sin: real)
    ensures RotateCorner(p, cos, sin).Minus(RotateCorner(q, cos, sin)) == RotateCorner(p.Minus(q), cos, sin)
  {
    calc {
      (p.x * cos - p.y * sin) - (q.x * cos - q.y * sin);
      (p.x - q.x) * cos - (p.y - q.y) * sin;
    }
    calc {
      (p.y * cos + p.x * sin) - (q.y * cos + q.x * sin);
      (p.y - q.y) * cos + (p.x - q.x) * sin;
    }
  }

  /** Rotation scales cross products by cos^2 + sin^2, so a true rotation keeps them. */
  lemma RotateCornerCross(u: Coord, v: Coord, cos: real, sin: real)
    ensures Cross(RotateCorner(u, cos, sin), RotateCorner(v, cos, sin)) == (cos * cos + sin * sin) * Cross(u, v)
  {
    var a, b := RotateCorner(u, cos, sin), RotateCorner(v, cos, sin);
    calc {
      a.x * b.y - a.y * b.x;
      (u.x * cos - u.y * sin) * (v.y * cos + v.x * sin) - (u.y * cos + u.x * sin) * (v.x * cos - v.y * sin);
      (cos * cos + sin * sin) * (u.x * v.y - u.y * v.x);
    }
  }

  /**
   * A true rotation is rigid: the rectangle's edges (top, left, bottom,
   * right) keep their lengths.
   */
  lemma {:induction false} RotateKeepsEdges(r: Rect, cos: real, sin: real)
    requires cos * cos + sin * sin == 1.0
    ensures var c, d := r.corners, RotateAbout(r, cos, sin).corners;
      && SqNorm(d.topRight.Minus(d.topLeft)) == SqNorm(c.topRight.Minus(c.topLeft))
      && SqNorm(d.topLeft.Minus(d.bottomLeft)) == SqNorm(c.topLeft.Minus(c.bottomLeft))
      && SqNorm(d.bottomRight.Minus(d.bottomLeft)) == SqNorm(c.bottomRight.Minus(c.bottomLeft))
      && SqNorm(d.topRight.Minus(d.bottomRight)) == SqNorm(c.topRight.Minus(c.bottomRight))
  {
    var o, t := Offsets(r), Offsets(RotateAbout(r, cos, sin));
    RotateTurnsOffsets(r, cos, sin);
    var c, d := r.corners, RotateAbout(r, cos, sin).corners;
    assert SqNorm(d.topRight.Minus(d.topLeft)) == SqNorm(c.topRight.Minus(c.topLeft)) by {
      TurnKeepsGap(o.topRight, o.topLeft, cos, sin);
      assert d.topRight.Minus(d.topLeft) == t.topRight.Minus(t.topLeft);
      assert c.topRight.Minus(c.topLeft) == o.topRight.Minus(o.topLeft);
    }
    assert SqNorm(d.topLeft.Minus(d.bottomLeft)) == SqNorm(c.topLeft.Minus(c.bottomLeft)) by {
      TurnKeepsGap(o.topLeft, o.bottomLeft, cos, sin);
      assert d.topLeft.Minus(d.bottomLeft) == t.topLeft.Minus(t.bottomLeft);
      assert c.topLeft.Minus(c.bottomLeft) == o.topLeft.Minus(o.bottomLeft);
    }
    assert SqNorm(d.bottomRight.Minus(d.bottomLeft)) == SqNorm(c.bottomRight.Minus(c.bottomLeft)) by {
      TurnKeepsGap(o.bottomRight, o.bottomLeft, cos, sin);
      assert d.bottomRight.Minus(d.bottomLeft) == t.bottomRight.Minus(t.bottomLeft);
      assert c.bottomRight.Minus(c.bottomLeft) == o.bottomRight.Minus(o.bottomLeft);
    }
    assert SqNorm(d.topRight.Minus(d.bottomRight)) == SqNorm(c.topRight.Minus(c.bottomRight)) by {
      TurnKeepsGap(o.topRight, o.bottomRight, cos, sin);
      assert d.topRight.Minus(d.bottomRight) == t.topRight.Minus(t.bottomRight);
      assert c.topRight.Minus(c.bottomRight) == o.topRight.Minus(o.bottomRight);
    }
  }

  /** A true rotation keeps the distance between two turned points. */
  lemma TurnKeepsGap(p: Coord, q: Coord, cos: real, sin: real)
    requires cos * cos + sin * sin == 1.0
    ensures SqNorm(RotateCorner(p, cos, sin).Minus(RotateCorner(q, cos, sin))) == SqNorm(p.Minus(q))
  {
    RotateCornerLinear(p, q, cos, sin);
    RotateCornerScales(p.Minus(q), cos, sin);
  }

  /** A part as the loader makes it: constructed, then rotated once. */
  function Placed(origin: Coord, height: real, width: real, cos: real, sin: real): Rect {
    RotateAbout(Build(origin, height, width), cos, sin)
  }

  /**
   * A placed part is centrally symmetric about its center (opposite corners
   * have opposite offsets), and its top-left and top-right offsets span a
   * parallelogram of signed area -(width * height) / 2.
   */
  lemma {:induction false} PlacedIsSymmetric(origin: Coord, height: real, width: real, cos: real, sin: real)
    requires cos * cos + sin * sin == 1.0
    ensures var o := Offsets(Placed(origin, height, width, cos, sin));
      && o.bottomRight == Origin.Minus(o.topLeft)
      && o.bottomLeft == Origin.Minus(o.topRight)
      && Cross(o.topLeft, o.topRight) == -(width * height) / 2.0
  {
    var b := Build(origin, height, width);
    var u, v := Offsets(b).topLeft, Offsets(b).topRight;
    assert u == Coord(-width / 2.0, height / 2.0) && v == Coord(width / 2.0, height / 2.0);
    assert Offsets(b).bottomRight == Origin.Minus(u) && Offsets(b).bottomLeft == Origin.Minus(v);
    RotateTurnsOffsets(b, cos, sin);
    RotateCornerLinear(Origin, u, cos, sin);
    RotateCornerLinear(Origin, v, cos, sin);
    RotateCornerCross(u, v, cos, sin);
    calc {
      Cross(u, v);
      (-width / 2.0) * (height / 2.0) - (height / 2.0) * (width / 2.0);
      -(width * height) / 2.0;
    }
  }

  /** Shifting the corners and shifting them back restores them. */
  lemma ShiftRoundTrip(q: Corners, d: Coord)
    ensures q.Shift(d).Shift(Origin.Minus(d)) == q
  {
  }
}
