/**
 * The processor's cheap geometric tests and the projection of a part into
 * the padded bitmap. `Out` and `Within` look only at the top-left and
 * bottom-right corners of the part and of the ROI, whatever the rotation;
 * with the top corners at the larger y, "left" is the smaller x and "top"
 * the larger y.
 */
module Overlap {
  import opened Geometry

  /**
   * The boxes spanned by the top-left and bottom-right corners of part and
   * ROI are apart on an axis.
   */
  predicate Out(rec: Rect, roi: Rect) {
    var l1, r1 := roi.corners.topLeft, roi.corners.bottomRight;
    var l2, r2 := rec.corners.topLeft, rec.corners.bottomRight;
    l1.x >= r2.x || l2.x >= r1.x || l1.y <= r2.y || l2.y <= r1.y
  }

  /** The part's corner box lies inside the ROI's corner box. */
  predicate Within(rec: Rect, roi: Rect) {
    var l1, r1 := roi.corners.topLeft, roi.corners.bottomRight;
    var l2, r2 := rec.corners.topLeft, rec.corners.bottomRight;
    l1.x <= l2.x && r1.x >= r2.x && l1.y >= l2.y && r1.y <= r2.y
  }

  /** The corner box is not empty: top-left is strictly left of and above bottom-right. */
  predicate NonDegenerate(r: Rect) {
    r.corners.topLeft.x < r.corners.bottomRight.x && r.corners.topLeft.y > r.corners.bottomRight.y
  }

  /** Moves a rectangle's corners, the only part the tests look at, by d. */
  function Shifted(r: Rect, d: Coord): Rect {
    r.(corners := r.corners.Shift(d))
  }

  /** The disjointness test does not depend on which rectangle is the ROI. */
  lemma OutSymmetric(a: Rect, b: Rect)
    ensures Out(a, b) <==> Out(b, a)
  {
  }

  /** Every rectangle is within itself. */
  lemma WithinReflexive(r: Rect)
    ensures Within(r, r)
  {
  }

  /** Containment chains. */
  lemma WithinTransitive(a: Rect, b: Rect, c: Rect)
    requires Within(a, b) && Within(b, c)
    ensures Within(a, c)
  {
  }

  /** A non-degenerate part that is within the ROI is not out of it: the two tests exclude each other. */
  lemma WithinNotOut(rec: Rect, roi: Rect)
    requires NonDegenerate(rec) && Within(rec, roi)
    ensures !Out(rec, roi)
  {
  }

  /** Both tests only compare corners, so moving part and ROI together changes neither. */
  lemma TestsIgnoreTranslation(rec: Rect, roi: Rect, d: Coord)
    ensures Out(Shifted(rec, d), Shifted(roi, d)) <==> Out(rec, roi)
    ensures Within(Shifted(rec, d), Shifted(roi, d)) <==> Within(rec, roi)
  {
  }

  /** A constructed rectangle is non-degenerate exactly when its height and width are positive. */
  lemma BuildNonDegenerate(origin: Coord, height: real, width: real)
    ensures NonDegenerate(Build(origin, height, width)) <==> height > 0.0 && width > 0.0
  {
  }

  /**
   * The points that `FillPolygon` hands to the drawing call: the part's
   * corners in the order top-left, top-right, bottom-left, bottom-right,
   * each taken relative to the ROI's top-left corner less the padding.
   */
  function FillPoints(rec: Rect, roi: Rect, peri: real): seq<Coord> {
    var base := roi.corners.topLeft;
    [Coord(rec.corners.topLeft.x - (base.x - peri), rec.corners.topLeft.y - (base.y - peri)),
     Coord(rec.corners.topRight.x - (base.x - peri), rec.corners.topRight.y - (base.y - peri)),
     Coord(rec.corners.bottomLeft.x - (base.x - peri), rec.corners.bottomLeft.y - (base.y - peri)),
     Coord(rec.corners.bottomRight.x - (base.x - peri), rec.corners.bottomRight.y - (base.y - peri))]
  }

  /**
   * There are four points, and they are the corners in that order all moved
   * by the one shift that takes the ROI's top-left corner to (peri, peri).
   */
  lemma FillPointsShift(rec: Rect, roi: Rect, peri: real)
    ensures var pts, shift := FillPoints(rec, roi, peri), Coord(peri, peri).Minus(roi.corners.topLeft);
      && |pts| == 4
      && pts[0].Minus(rec.corners.topLeft) == shift
      && pts[1].Minus(rec.corners.topRight) == shift
      && pts[2].Minus(rec.corners.bottomLeft) == shift
      && pts[3].Minus(rec.corners.bottomRight) == shift
  {
  }

  /** The ROI's own top-left corner lands on (peri, peri). */
  lemma FillPointsRoiCorner(roi: Rect, peri: real)
    ensures FillPoints(roi, roi, peri)[0] == Coord(peri, peri)
  {
  }

  /** The projection is ROI-local: moving part and ROI together leaves the points unchanged. */
  lemma FillPointsIgnoreTranslation(rec: Rect, roi: Rect, peri: real, d: Coord)
    ensures FillPoints(Shifted(rec, d), Shifted(roi, d), peri) == FillPoints(rec, roi, peri)
  {
  }

  /**
   * Where a part within the ROI lands, one side each: its top-left point
   * has x at least peri and y at most peri, and its bottom-right point x at
   * most peri + (ROI width) and y at least peri - (ROI height). The top
   * corners carry the larger y while the ROI's top-left corner is
   * subtracted, so y runs from peri - (ROI height) up to peri.
   */
  lemma FillPointsWithinBand(rec: Rect, roi: Rect, peri: real)
    requires Within(rec, roi)
    ensures var pts, w, h := FillPoints(rec, roi, peri),
                             roi.corners.bottomRight.x - roi.corners.topLeft.x,
                             roi.corners.topLeft.y - roi.corners.bottomRight.y;
      && peri <= pts[0].x && pts[3].x <= peri + w
      && peri - h <= pts[3].y && pts[0].y <= peri
  {
  }

  /**
   * For a part whose corner box is not empty, both its top-left and its
   * bottom-right points land inside the band, in both coordinates. The
   * top-right and bottom-left points are not bounded: `Within` does not
   * look at them.
   */
  lemma FillPointsCornersInBand(rec: Rect, roi: Rect, peri: real)
    requires Within(rec, roi) && NonDegenerate(rec)
    ensures var pts, w, h := FillPoints(rec, roi, peri),
                             roi.corners.bottomRight.x - roi.corners.topLeft.x,
                             roi.corners.topLeft.y - roi.corners.bottomRight.y;
      && peri <= pts[0].x < pts[3].x <= peri + w
      && peri - h <= pts[3].y < pts[0].y <= peri
  {
  }

  /** Signed turn at each vertex of the closed polygon a, b, c, d. */
  function Turns(a: Coord, b: Coord, c: Coord, d: Coord): seq<real> {
    [Cross(b.Minus(a), c.Minus(b)), Cross(c.Minus(b), d.Minus(c)),
     Cross(d.Minus(c), a.Minus(d)), Cross(a.Minus(d), b.Minus(a))]
  }

  /**
   * A quadrilateral whose four turns all have the same strict sign is a
   * simple convex polygon; a self-crossing "bowtie" has turns of both signs.
   */
  predicate ConvexQuad(p: seq<Coord>)
    requires |p| == 4
  {
    var t := Turns(p[0], p[1], p[2], p[3]);
    (t[0] > 0.0 && t[1] > 0.0 && t[2] > 0.0 && t[3] > 0.0) ||
    (t[0] < 0.0 && t[1] < 0.0 && t[2] < 0.0 && t[3] < 0.0)
  }

  /** Visiting q+u, q+v, q-v, q-u turns one way and then the other. */
  lemma BowtieTurns(q: Coord, u: Coord, v: Coord)
    ensures var t := Turns(q.Plus(u), q.Plus(v), q.Minus(v), q.Minus(u));
      t[0] == 2.0 * Cross(u, v) && t[1] == -2.0 * Cross(u, v)
  {
    var a, b, c, d := q.Plus(u), q.Plus(v), q.Minus(v), q.Minus(u);
    assert b.Minus(a) == v.Minus(u);
    assert c.Minus(b) == Coord(-2.0 * v.x, -2.0 * v.y);
    assert d.Minus(c) == v.Minus(u);
    calc {
      Cross(v.Minus(u), Coord(-2.0 * v.x, -2.0 * v.y));
      (v.x - u.x) * (-2.0 * v.y) - (v.y - u.y) * (-2.0 * v.x);
      2.0 * (u.x * v.y - u.y * v.x);
    }
    calc {
      Cross(Coord(-2.0 * v.x, -2.0 * v.y), v.Minus(u));
      (-2.0 * v.x) * (v.y - u.y) - (-2.0 * v.y) * (v.x - u.x);
      -2.0 * (u.x * v.y - u.y * v.x);
    }
  }

  /** Visiting q+u, q+v, q-u, q-v turns the same way at every vertex. */
  lemma BoundaryTurns(q: Coord, u: Coord, v: Coord)
    ensures var t := Turns(q.Plus(u), q.Plus(v), q.Minus(u), q.Minus(v));
      t[0] == 2.0 * Cross(u, v) && t[1] == 2.0 * Cross(u, v) &&
      t[2] == 2.0 * Cross(u, v) && t[3] == 2.0 * Cross(u, v)
  {
    var a, b, c, d := q.Plus(u), q.Plus(v), q.Minus(u), q.Minus(v);
    assert b.Minus(a) == v.Minus(u) && d.Minus(c) == u.Minus(v);
    assert c.Minus(b) == Coord(-u.x - v.x, -u.y - v.y);
    assert a.Minus(d) == Coord(u.x + v.x, u.y + v.y);
    calc {
      Cross(v.Minus(u), Coord(-u.x - v.x, -u.y - v.y));
      (v.x - u.x) * (-u.y - v.y) - (v.y - u.y) * (-u.x - v.x);
      2.0 * (u.x * v.y - u.y * v.x);
    }
    calc {
      Cross(Coord(-u.x - v.x, -u.y - v.y), u.Minus(v));
      (-u.x - v.x) * (u.y - v.y) - (-u.y - v.y) * (u.x - v.x);
      2.0 * (u.x * v.y - u.y * v.x);
    }
    calc {
      Cross(u.Minus(v), Coord(u.x + v.x, u.y + v.y));
      (u.x - v.x) * (u.y + v.y) - (u.y - v.y) * (u.x + v.x);
      2.0 * (u.x * v.y - u.y * v.x);
    }
    calc {
      Cross(Coord(u.x + v.x, u.y + v.y), v.Minus(u));
      (u.x + v.x) * (v.y - u.y) - (u.y + v.y) * (v.x - u.x);
      2.0 * (u.x * v.y - u.y * v.x);
    }
  }

  /**
   * The points of a placed part as q + (corner offset), where q is the
   * part's center moved by the projection's shift.
   */
  lemma {:induction false} PlacedPoints(origin: Coord, height: real, width: real, cos: real, sin: real,
                                        roi: Rect, peri: real)
    requires cos * cos + sin * sin == 1.0
    ensures var r := Placed(origin, height, width, cos, sin);
      var o, pts := Offsets(r), FillPoints(r, roi, peri);
      var q := r.center.Plus(Coord(peri, peri).Minus(roi.corners.topLeft));
      && pts[0] == q.Plus(o.topLeft) && pts[1] == q.Plus(o.topRight)
      && pts[2] == q.Minus(o.topRight) && pts[3] == q.Minus(o.topLeft)
      && Cross(o.topLeft, o.topRight) == -(width * height) / 2.0
  {
    PlacedIsSymmetric(origin, height, width, cos, sin);
  }

  /**
   * As written, the four points of any placed part with positive height and
   * width form a self-crossing quadrilateral: the edges top-right to
   * bottom-left and bottom-right to top-left are both diagonals of the part
   * and cross at its center, and the polygon turns both ways.
   */
  lemma {:induction false} FillPointsCross(origin: Coord, height: real, width: real, cos: real, sin: real,
                                           roi: Rect, peri: real)
    requires height > 0.0 && width > 0.0 && cos * cos + sin * sin == 1.0
    ensures var pts := FillPoints(Placed(origin, height, width, cos, sin), roi, peri);
      && pts[1].Plus(pts[2]) == pts[3].Plus(pts[0])
      && !ConvexQuad(pts)
  {
    var r := Placed(origin, height, width, cos, sin);
    var o := Offsets(r);
    var q := r.center.Plus(Coord(peri, peri).Minus(roi.corners.topLeft));
    PlacedPoints(origin, height, width, cos, sin, roi, peri);
    BowtieTurns(q, o.topLeft, o.topRight);
    assert width * height > 0.0;
  }

  /**
   * The part's corners in boundary order: top-left, top-right, bottom-right,
   * bottom-left, moved by the same shift as `FillPoints`.
   */
  function BoundaryPoints(rec: Rect, roi: Rect, peri: real): seq<Coord> {
    var f := FillPoints(rec, roi, peri);
    [f[0], f[1], f[3], f[2]]
  }

  /** In boundary order, every placed part with positive height and width is a simple convex polygon. */
  lemma {:induction false} BoundaryPointsConvex(origin: Coord, height: real, width: real, cos: real, sin: real,
                                                roi: Rect, peri: real)
    requires height > 0.0 && width > 0.0 && cos * cos + sin * sin == 1.0
    ensures ConvexQuad(BoundaryPoints(Placed(origin, height, width, cos, sin), roi, peri))
  {
    var r := Placed(origin, height, width, cos, sin);
    var o := Offsets(r);
    var q := r.center.Plus(Coord(peri, peri).Minus(roi.corners.topLeft));
    PlacedPoints(origin, height, width, cos, sin, roi, peri);
    BoundaryTurns(q, o.topLeft, o.topRight);
    assert width * height > 0.0;
  }
}
