/**
 * The source's mutable `Rectangle`: its corner fields are updated in place
 * by `MoveCorners`, `Move` and `Rotate`. Every method is specified by the
 * pure transform of `Geometry` it performs on the object's state `Value()`.
 */
module Shapes {
  import opened Geometry

  class Rectangle {
    var height: real
    var width: real
    var rotation: real
    var center: Coord
    var topLeft: Coord
    var topRight: Coord
    var bottomLeft: Coord
    var bottomRight: Coord

    /** The object's whole state as a value. */
    function Value(): Rect
      reads this
    {
      Rect(height, width, rotation, center, Corners(topLeft, topRight, bottomLeft, bottomRight))
    }

    /** Four axis-aligned corners around `origin`; the rotation field starts at 0. */
    constructor (origin: Coord, height: real, width: real)
      ensures Value() == Build(origin, height, width)
    {
      this.height := height;
      this.width := width;
      rotation := 0.0;
      center := origin;
      bottomLeft := Coord(origin.x - width / 2.0, origin.y - height / 2.0);
      bottomRight := Coord(origin.x + width / 2.0, origin.y - height / 2.0);
      topLeft := Coord(origin.x - width / 2.0, origin.y + height / 2.0);
      topRight := Coord(origin.x + width / 2.0, origin.y + height / 2.0);
    }

    /** Adds d to every corner; the center is left where it is. */
    method MoveCorners(d: Coord)
      modifies this
      ensures Value() == old(Value()).(corners := old(Value()).corners.Shift(d))
    {
      bottomRight := Coord(bottomRight.x + d.x, bottomRight.y + d.y);
      bottomLeft := Coord(bottomLeft.x + d.x, bottomLeft.y + d.y);
      topRight := Coord(topRight.x + d.x, topRight.y + d.y);
      topLeft := Coord(topLeft.x + d.x, topLeft.y + d.y);
    }

    /** Moves the center to c, carrying the corners along. */
    method Move(c: Coord)
      modifies this
      ensures Value() == MoveTo(old(Value()), c)
    {
      MoveCorners(Coord(c.x - center.x, c.y - center.y));
      center := Coord(center.x + (c.x - center.x), center.y + (c.y - center.y));
    }

    /**
     * Rotates the corners about the center by the angle whose cosine and
     * sine are given: to the origin, each corner through `RotateCorner`,
     * and back to the saved center.
     */
    method Rotate(cos: real, sin: real)
      modifies this
      ensures Value() == RotateAbout(old(Value()), cos, sin)
    {
      var temp := Coord(center.x, center.y);
      Move(Coord(0.0, 0.0));

      bottomRight := RotateCorner(bottomRight, cos, sin);
      topRight := RotateCorner(topRight, cos, sin);
      bottomLeft := RotateCorner(bottomLeft, cos, sin);
      topLeft := RotateCorner(topLeft, cos, sin);

      Move(temp);
    }
  }
}
