# ROI processor: a Dafny model

This project models the core of the RoiProcessor in `GetBitmap/Program.cs`. The processor keeps a list of
rectangular parts, each possibly rotated. For a rectangular region of interest (ROI) it is meant to:

- test every part against the ROI (`Out`, `Within`);
- paint each part that is not out of the ROI as a white polygon on a padded canvas;
- drop from its own list the parts that are not out of the ROI and lie within it.

The code as written does not do this, and the model captures both. It takes its loop bound from the list
it shrinks, so it can leave parts of `data` untested and remove the wrong list entry. It also lists each
part's corners in an order that draws a self-crossing bowtie. "## Findings" gives both, with the members that
exhibit them and the corrected members.

The model has five modules:

- `Geometry` (`geometry.dfy`): points, corners and rectangle states as values, with the pure transforms the
  `Rectangle` methods perform. These are construction (`Build`), translation (`MoveTo`) and rotation about the
  center (`RotateAbout`). The lemmas cover round trips, composition and rigidity.
- `Shapes` (`rectangle.dfy`): the mutable `Rectangle` class. Its fields are updated in place by `MoveCorners`,
  `Move` and `Rotate`, and each method is specified by the `Geometry` transform it performs on `Value()`.
- `Overlap` (`overlap.dfy`): the `Out` and `Within` tests, and the points `FillPolygon` hands to the drawing
  call (`FillPoints`), with their geometry.
- `Selection` (`selection.dfy`): the `GetBitmap` loop as a function. `Sweep` returns the list left behind, the
  indices painted, the parts filled, the removals, and whether the loop fell off the end of `data`. The module
  also holds the intended selection (`VisibleIndices`, `Prune`).
- `Processing` (`processor.dfy`): the `Processor` class. It has the running maxima of part height and width,
  the part list, the loader loop, `GetBitmap` as written, and the corrected selection.

Coordinates are exact reals, and a rotation is given by its cosine and sine. The lemmas that need a true
rotation require `cos * cos + sin * sin == 1`. The "top" corners carry the larger y.

The rectangle's `Rotation` field is never assigned in the code. The constructor leaves it 0 and `Rotate` does
not touch it, although the property's name suggests an accumulated angle. The model follows the
code: `RotateAbout` keeps the field unchanged.

## Model

| member | source | states |
|---|---|---|
| Shapes.Rectangle.constructor | GetBitmap/Program.cs:29-39 | the new object's state is `Build(origin, height, width)`: corners at center ± (width/2, height/2), with the top corners above; rotation field 0 |
| Shapes.Rectangle.MoveCorners | GetBitmap/Program.cs:49-62 | every corner moves by the same delta; height, width, rotation and center are unchanged |
| Geometry.ShiftRoundTrip | GetBitmap/Program.cs:49-62 | moving the corners by d and then by -d restores them |
| Shapes.Rectangle.Move | GetBitmap/Program.cs:41-47 | the new state is `MoveTo(old state, c)`: the center becomes c and every corner moves by c - center |
| Shapes.Rectangle.Rotate | GetBitmap/Program.cs:64-75 | the new state is `RotateAbout(old state, cos, sin)`: move to the origin, turn each corner, move back to the saved center |
| Geometry.BuildShape | GetBitmap/Program.cs:29-39 | the constructed rectangle has the given center, height and width; its top edge is (width, 0); its left edge rises by height; its center is the midpoint of both diagonals |
| Geometry.RotateCornerScales | GetBitmap/Program.cs:77-84 | the corner rotation scales squared lengths by cos² + sin², so a true rotation keeps lengths |
| Geometry.MoveTo | GetBitmap/Program.cs:41-62 | moving puts the center at c and keeps height, width and the rotation field |
| Geometry.RotateAbout | GetBitmap/Program.cs:64-84 | rotating keeps the center, height, width and the rotation field |
| Geometry.MoveKeepsOffsets | GetBitmap/Program.cs:41-62 | moving keeps every corner's offset from the center |
| Geometry.MoveRoundTrip | GetBitmap/Program.cs:41-62 | moving to c and back to the old center restores the rectangle exactly |
| Geometry.RotateTurnsOffsets | GetBitmap/Program.cs:64-84 | rotation about the center turns every corner offset by the corner rotation and leaves the center in place |
| Geometry.RotateRoundTrip | GetBitmap/Program.cs:64-84 | rotating by an angle and then by its negative restores the rectangle |
| Geometry.RotateCompose | GetBitmap/Program.cs:64-84 | two rotations in a row equal one rotation by the summed angle (angle-addition formulas) |
| Geometry.RotateKeepsDistances | GetBitmap/Program.cs:64-84 | a true rotation keeps each corner's distance from the center |
| Geometry.RotateKeepsEdges | GetBitmap/Program.cs:64-84 | a true rotation keeps the length of all four edges |
| Geometry.PlacedIsSymmetric | GetBitmap/Program.cs:29-84 | a constructed-then-rotated part is centrally symmetric, and its top-left/top-right offsets span signed area -(width·height)/2 |
| Overlap.OutSymmetric | GetBitmap/Program.cs:122-132 | the disjointness test gives the same answer with part and ROI swapped |
| Overlap.WithinReflexive | GetBitmap/Program.cs:134-143 | every rectangle is within itself |
| Overlap.WithinTransitive | GetBitmap/Program.cs:134-143 | containment chains |
| Overlap.WithinNotOut | GetBitmap/Program.cs:122-143 | a non-degenerate part within the ROI is not out of it, so the two tests exclude each other |
| Overlap.TestsIgnoreTranslation | GetBitmap/Program.cs:122-143 | moving part and ROI together changes neither test |
| Overlap.BuildNonDegenerate | GetBitmap/Program.cs:29-39 | a constructed rectangle has a non-empty corner box exactly when its height and width are positive |
| Overlap.FillPointsShift | GetBitmap/Program.cs:145-152 | the four points are the corners in the order TL, TR, BL, BR, each moved by the one shift taking the ROI's top-left corner to (peri, peri) |
| Overlap.FillPointsRoiCorner | GetBitmap/Program.cs:145-152 | the ROI's own top-left corner lands on (peri, peri) |
| Overlap.FillPointsIgnoreTranslation | GetBitmap/Program.cs:145-152 | the points depend only on the part's position relative to the ROI |
| Overlap.FillPointsWithinBand | GetBitmap/Program.cs:134-152 | for a part within the ROI, the top-left point has x ≥ peri and y ≤ peri, and the bottom-right point has x ≤ peri + ROI width and y ≥ peri - ROI height |
| Overlap.FillPointsCornersInBand | GetBitmap/Program.cs:134-152 | for a part within the ROI with a non-empty corner box, the top-left and bottom-right points (not the other two) have x in peri .. peri + ROI width and y in peri - ROI height .. peri, the top-left point at a smaller x and a larger y than the bottom-right one |
| Overlap.BowtieTurns | GetBitmap/Program.cs:147-152 | visiting q+u, q+v, q-v, q-u turns one way and then the other |
| Overlap.BoundaryTurns | GetBitmap/Program.cs:147-152 | visiting q+u, q+v, q-u, q-v turns the same way at all four vertices |
| Overlap.PlacedPoints | GetBitmap/Program.cs:145-152 | the points of a placed part are its shifted center plus or minus the top-left and top-right offsets |
| Overlap.FillPointsCross | GetBitmap/Program.cs:147-152 | as written, for every placed part with positive size, two edges of the point list are the part's diagonals, and the polygon is not convex (self-crossing) |
| Overlap.BoundaryPointsConvex | GetBitmap/Program.cs:147-152 | in the corrected order, every placed part with positive size is a convex polygon |
| Selection.SubseqDropAt | GetBitmap/Program.cs:174 | `RemoveAt(i)` leaves a subsequence of the list |
| Selection.SubseqTransitive | GetBitmap/Program.cs:167-178 | removals compose: a subsequence of a subsequence is a subsequence |
| Selection.VisibleIndicesSpec | GetBitmap/Program.cs:169 | the indices not out of the ROI are exactly those k in range with `!Out(data[k], roi)`, strictly increasing |
| Selection.SweepFills | GetBitmap/Program.cs:176 | the parts handed to `FillPolygon` are the parts of `data` at the painted indices |
| Selection.SweepPaintsVisited | GetBitmap/Program.cs:167-178 | the loop paints exactly the indices not out of the ROI among those it visits; it faults only past the end of `data` and otherwise stops when the index reaches the shrunken list's length |
| Selection.PaintedAreVisible | GetBitmap/Program.cs:169-176 | every painted index is an index of `data` whose part is not out of the ROI |
| Selection.SweepRemovals | GetBitmap/Program.cs:172-175 | removals happen only at painted indices whose part in `data` is within the ROI; each removal shortens the list by one; the final list is a subsequence of the original |
| Selection.SweepSkipsVisiblePart | GetBitmap/Program.cs:167-178 | as written, with two parts inside the ROI, the second (visible) part is never painted |
| Selection.SweepRemovesWrongPart | GetBitmap/Program.cs:172-174 | as written, a part far outside the ROI is removed and a part within it is kept |
| Selection.PruneSpec | GetBitmap/Program.cs:172-175 | the intended pruning keeps exactly the parts that are out of, or not within, the ROI, each as many times as the list holds it, and drops every copy of the others; the result is no longer than the list and is a subsequence of it |
| Processing.RunningMaxSpec | GetBitmap/Program.cs:109-116 | the running maximum never falls below the start value, bounds every value seen, and is the start value or one of them |
| Processing.Processor.constructor | GetBitmap/Program.cs:91-98 | the maxima start at 0; after loading, the list is the parsed parts and the maxima are their running maxima |
| Processing.Processor.DataParser | GetBitmap/Program.cs:101-120 | the list becomes the parts in order; each maximum is the running maximum from its old value (never reset); every part's height and width are bounded by them |
| Processing.Processor.GetBitmap | GetBitmap/Program.cs:145-178 | peri = max(MaxWidth, MaxHeight) ≥ 0; the list and the filled parts are those of `Sweep`; every filled part is a part of `data` not out of the ROI; each filled part is drawn with the point list `FillPoints(part, roi, peri)`; the remaining list is a subsequence of the old one |
| Processing.Processor.SweepParts | GetBitmap/Program.cs:167-178 | the loop's final list, filled parts and fault flag are those of `Sweep(old list, data, roi, 0)` |
| Processing.Processor.SweepPart | GetBitmap/Program.cs:169-176 | one pass at index i: a part out of the ROI is skipped; any other is filled, and position i is removed from the list when the part is within the ROI; `Sweep` from i on the old list agrees, in the list, the fault flag and the filled parts, with this pass followed by `Sweep` from i + 1 on the new list |
| Processing.PaintVisible | GetBitmap/Program.cs:167-177 | corrected painting pass: the filled parts are the parts of `data` at exactly the indices not out of the ROI, in order; every such part is filled and no other |
| Processing.Processor.PruneParts | GetBitmap/Program.cs:172-175 | corrected removal: the list becomes `Prune(old list)`, the parts out of or not within the ROI, in order |
| Processing.Processor.GetBitmapCorrected | GetBitmap/Program.cs:145-178 | corrected selection: every part of `data` not out of the ROI is filled, in order, and no other part is; each is drawn with the corners in boundary order (`BoundaryPoints`); the list becomes `Prune(old list)` |

## Left out

- Drawing is left out: the bitmap, the graphics context, brush, clear colour, pixel-offset mode, the final scaled
  copy of the padded image into the ROI-sized bitmap, and saving `ROI.bmp`. `GetBitmap` returns the parts handed to `FillPolygon` and, for each, the point list
  passed to `g.FillPolygon`, but not what the drawing library does with it. A drawing library cannot be verified.
- The pixel sizes of the two bitmaps are left out. They are `Math.Ceiling` of the ROI's width and height plus
  2·peri, and of the ROI's width and height, cast to int. What follows from a size that is not positive is
  given on the `GetBitmap` line below.
- `DataParser` reads lines from a file, and its body does not compile: it uses `new Rectangle()` and
  `temp.Rotate()` without arguments. The model takes the parsed parts as a parameter. It does not model the
  per-part rotation; `RotateAbout` keeps height and width, so that rotation cannot change the running maxima.
- Single-precision floats, `Convert.ToSingle` rounding and `Math.Cos`/`Math.Sin` are left out. Coordinates are
  exact reals, and a rotation is given by its cosine and sine.
- Reference aliasing is left out, and `Coord` is a value. In the source:
  - the constructor shares `origin` as the center object, so `Move` also writes the caller's point;
  - `RotateCorrner` rewrites its argument in place;
  - `data` and the private list are separate lists here. A caller cannot pass the private list.
- Processing.Processor.GetBitmap returns `completed == false` for one of the source's exceptions only: the
  `ArgumentOutOfRangeException` from `data[i]` when the list is longer than `data`. The state left at that point
  is kept. The `Bitmap` constructor's exception for a size that is not positive is not modelled, at either of its
  two points:
  - at Program.cs:161, before the loop, when the padded width or height rounds up to 0 or less. `recs` is then
    untouched.
  - at Program.cs:179, after the loop has already pruned `recs`, when the ROI's own width or height rounds up to
    0 or less.
  In both cases the model sweeps and returns `completed == true`.
- Processing.Processor.SweepParts is the loop of `GetBitmap` as its own method, and Processing.Processor.SweepPart
  one pass of it. Their contracts are the loop's and the pass's. The point lists are computed from the filled
  parts after the loop rather than inside it; they are the same lists in the same order.
- Processing.Processor.Valid: `MaxHeight` and `MaxWidth` are public writable fields in the source. `GetBitmap`,
  `GetBitmapCorrected` and `DataParser` require them non-negative, and `peri ≥ 0` holds, only when no caller
  writes a negative value into them; the model has no such writer.
- The `Rotation` property is never written by the code. The model keeps it at its old value.

## Findings

| source | as written | input that shows it | evidently intended | confidence | as-written member | corrected member |
|---|---|---|---|---|---|---|
| GetBitmap/Program.cs:167-177 | the loop bound is `recs.Count`, which shrinks after `recs.RemoveAt(i)`, while `i` still advances and indexes `data`; removing at `i` in the shrunken list deletes a different part than `data[i]` | ROI 10×10 at the origin; parts a = 2×2 at (0,0), b = 2×2 at (1,1), c = 2×2 at (100,100), with `data` = list = [a, b, c]: b is never painted from [a, b], and from [a, b, c] the list ends as [b] (c, far outside, removed; b, within, kept) | paint every part of `data` that is not out of the ROI, then drop from the list exactly the parts that are not out of the ROI and are within it (a part both `Within` and `Out` is kept) | high, not executed | Selection.SweepSkipsVisiblePart, Selection.SweepRemovesWrongPart | Processing.Processor.GetBitmapCorrected |
| GetBitmap/Program.cs:147-152 | the polygon's points are listed TL, TR, BL, BR, so the edges TR→BL and BR→TL are the two diagonals | any part with positive height and width, at any rotation | list the corners in boundary order TL, TR, BR, BL, which fills the whole rectangle | high, not executed | Overlap.FillPointsCross | Overlap.BoundaryPointsConvex |
