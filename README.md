# Polygon graphics on a Tk canvas — a Dafny model

The modelled library draws plane figures as Tk canvas polygons:

- **Shapes.** `PolygonGraphics` is the base of every shape. It gives each
  shape an identity tag: its class name followed by a number from one
  counter shared by all shape classes. The shape reaches its polygon on the
  canvas through that tag, and the base class provides:
  - reading and writing coordinates and tags, with tag merging on
    `config`;
  - moving and scaling;
  - rotation about a centre, using complex arithmetic;
  - point and line reflection;
  - cloning;
  - the helpers the concrete shapes use: coordinate flattening, the
    centroid, angular sorting, side lengths, `_all_equal` and elliptic arc
    sampling.
- **Concrete shapes:**
  - `Quadrilateral`, which checks arity;
  - `Kite`, `Trapezoid`, `Parallelogram`, `Rhombus`, `Rectangle` and
    `Square`, which test their shape after drawing; the last two also have
    the `from_sides` and `from_side` corner builders;
  - `Triangle`;
  - `Ellipse` and `Circle`; a circle draws an inner ellipse and takes over
    its polygon;
  - `ConcaveCircularHypotenuse`, a right-angled shape whose hypotenuse is a
    concave circular arc.
- **Groups.** A `Group` is an ordered member list.
  - It keeps a group tag on every member.
  - It sends bounding box, move and scale to the canvas through the group
    tag.
  - It rotates and reflects members one at a time.
  - It clones member by member.

## How the model is built

**The canvas.** `Surface.Canvas` is a class whose one field,
`items: seq<Item>`, holds the polygons in creation order. Each item carries a
coordinate list and a tag list. The canvas addresses items the way Tk does:

- `coords` reads and writes the first item that carries the tag;
- `addtag_withtag`, `dtag`, `itemconfig`, `move` and `scale` act on every
  item that carries it.

Each canvas method is specified by a function over the item list
(`Surface.SetCoords`, `Surface.AddTag`, `Surface.DTag`, `Surface.Move`, …).
The lemmas are proved about those functions.

**Shapes, counters and groups.**

- A shape is a `Polygon.Shape` object holding its canvas, its id tag and a
  `Kind`: the polygonal class, or the ellipse, circle or hypotenuse
  parameters its factory needs.
- The id counters are `Identifiers.IdCounter` objects: one shared by all
  shape classes, one for groups.
- A `Groups.Group` object holds its canvas, its id tag and a `members`
  sequence, which its methods reassign.

**Numbers and maths functions.**

- Numbers are exact reals, and `isclose` is exact equality.
- A distance is kept as `Length = Root(square)`. The square root is
  injective on non-negative numbers, so two distances are equal exactly when
  their squares are.
- `atan2`, the unit-circle point `cis(t) = cos t + i sin t`, `sqrt` and
  `acos` are parameters: the `Arcs.Library` value, or a bare `atan2`.
- Where a proof needs a law of these functions, it requires one of two
  predicates:
  - `Arcs.Exact`: `cis` lies on the unit circle, `cis(s)·cis(-s) = 1`,
    `cis(π) = -1`, and `sqrt` is the non-negative square root;
  - `Custom.AcosLaws`: `acos` is non-negative and non-increasing on
    [-1, 1], and `acos(√½) = π/4`.

**Errors.** Python exceptions become `Result`/`Outcome` values named after
the exception: `TypeError`, `ValueError`, `ZeroDivisionError`,
`StatisticsError`, and Tk's `TclError`. `IndexError` appears only for an empty
list of sides in the kite test, which `side_lengths` never returns. A constructor that raises after it
has drawn is modelled with the drawing left on the canvas and the error
returned.

**Where the code and its docstrings or messages say more than it does, the
model follows the code:**

- `reflect` promises a reflection through one point or across the line of
  two points (fundamental_classes.py:225-231). Any other count of numbers
  does nothing, because the `return` at line 238 comes before the
  `ValueError` at line 239.
- `_sort_vertices_for_proper_plotting` promises an ordering that draws the
  polygon without crossing lines (fundamental_classes.py:85-87). It keys the
  points by a dictionary, so repeated points are dropped (line 95).
- `_is_kite` asks for a quadrilateral (shapes/quadrilaterals.py:34-35). Its
  `and` binds tighter than its `or`, so fewer than four sides are also
  tried. One distinct point passes, because `_all_equal()` with no
  arguments is true.
- `_is_square` asks for a quadrilateral (shapes/quadrilaterals.py:186-187).
  It never counts the vertices, so one repeated point passes.
- `_is_parallelogram` describes both pairs of opposite sides
  (shapes/quadrilaterals.py:87-88). The code decides on the first parallel
  pair alone.
- `ConcaveCircularHypotenuse` allows a side of 0: its check is `side < 0`,
  although its message asks for a positive side
  (shapes/custom_shapes.py:10-11). The shape then fails with a division by
  zero when it is drawn.

Two further behaviours are modelled as written:

- An empty `Group` rotates and reflects without error.
- A shape that fails its test leaves its drawn polygon on the canvas.

Files, one module each:

| File | Module | Contents |
|---|---|---|
| `outcomes.dfy` | `Outcomes` | error kinds and the result types |
| `ordering.dfy` | `Ordering` | first-occurrence deduplication and stable insertion sort |
| `identifiers.dfy` | `Identifiers` | class names, the shared id counter, decimal ids |
| `tags.dfy` | `Tags` | Tk tag strings and `config` tag merging |
| `coordinates.dfy` | `Coordinates` | flattening, centroid, angular sort, side lengths, `_all_equal` |
| `complex.dfy` | `ComplexPlane` | complex arithmetic, rotation, point and line reflection |
| `arcs.dfy` | `Arcs` | the maths-function parameters, `round`, elliptic arc sampling |
| `surface.dfy` | `Surface` | the canvas |
| `polygon.dfy` | `Polygon` | `PolygonGraphics`: the shape class and its transforms |
| `triangles.dfy` | `Triangles` | `Triangle` |
| `quadrilaterals.dfy` | `Quadrilaterals` | quadrilateral tests, constructors and corner builders |
| `ellipses.dfy` | `Ellipses` | `Ellipse`, `Circle`, `center_point` |
| `custom.dfy` | `Custom` | `ConcaveCircularHypotenuse` |
| `cloning.dfy` | `Cloning` | instance factories and `clone` |
| `groups.dfy` | `Groups` | `Group` |

## Model

| member | source | states |
|---|---|---|
| Identifiers.IdCounter.constructor | fundamental_classes.py:19 | a new counter starts at 1, like `count(1)` |
| Identifiers.IdCounter.Take | fundamental_classes.py:24 | `next` hands out the current number and advances the counter by exactly one |
| Identifiers.Decimal | fundamental_classes.py:24 | `str(n)` is a non-empty run of decimal digits, of at least two digits from 10 on |
| Identifiers.DecimalInjective | fundamental_classes.py:24 | different numbers print differently |
| Identifiers.NamesAreNames | fundamental_classes.py:24 | every shape class name and `Group` is a non-empty run of letters |
| Identifiers.IdIsTag | fundamental_classes.py:24 | an id tag is a valid Tk tag: non-empty, without spaces |
| Identifiers.FirstDigitOfId | fundamental_classes.py:24 | in an id tag the number starts right after the class name |
| Identifiers.IdInjective | fundamental_classes.py:19-24 | two id tags are equal only for equal class names and equal numbers, so ids drawn from the shared counter never repeat |
| Tags.Split | fundamental_classes.py:131 | Tk reads a tag string as a list of valid tags |
| Tags.SplitJoin | fundamental_classes.py:124 | joining valid tags with spaces and reading them back gives the same list |
| Tags.MergeTags | fundamental_classes.py:121-129 | a `tags` option raises exactly for a non-empty list holding a non-string (TypeError, from the join) and for a true value that is neither text nor a list (ValueError); an absent option is passed on as absent; an empty string or list, or a false value of another type, skips the merge and reaches Tk unchanged |
| Tags.MergeText | fundamental_classes.py:125-126 | non-empty text becomes its words followed by the id tag |
| Tags.MergeItems | fundamental_classes.py:123-124 | a non-empty list of tags becomes that list followed by the id tag |
| Tags.MergeKeepsId | fundamental_classes.py:121-129 | whenever text or a list of strings is merged, the id tag comes last; the list is empty exactly when the option was empty text or an empty list |
| Ordering.DedupSpec | fundamental_classes.py:95 | collecting points as dictionary keys keeps each point exactly once, loses none, and keeps first-occurrence order |
| Ordering.DedupOfDistinct | fundamental_classes.py:95 | pairwise distinct points are kept as given |
| Ordering.DedupNoLonger | fundamental_classes.py:95 | deduplication never lengthens the list |
| Ordering.DedupShrinks | fundamental_classes.py:95 | a repeated point makes the list strictly shorter |
| Ordering.DistinctCount | fundamental_classes.py:95 | a non-empty list keeps between one and all of its points, all of them exactly when no point repeats |
| Ordering.SortBySpec | fundamental_classes.py:97 | `sorted` by a key gives a key-ordered permutation in which the items of equal key keep their input order |
| Ordering.StableSortedDedup | fundamental_classes.py:95-97 | after deduplication and sorting, points of equal angle appear in their first-occurrence order |
| Ordering.SortedDedupSpec | fundamental_classes.py:95-99 | the result holds every input point exactly once, sorted by key, ties in first-occurrence order |
| Coordinates.FlatPoints | fundamental_classes.py:95 | a list of points becomes x1, y1, x2, y2, …, twice as long |
| Coordinates.Pairs | fundamental_classes.py:95 | an even-length list is read two numbers per point, in order |
| Coordinates.FlattenFailsOnNonNumbers | fundamental_classes.py:56-72 | flattening succeeds exactly when every leaf at any depth is a number; any other leaf, a string included, gives TypeError |
| Coordinates.FlattenFlat | fundamental_classes.py:56-72 | an already flat list of numbers comes back unchanged |
| Coordinates.FlattenConcat | fundamental_classes.py:62-67 | flattening works left to right: a concatenation flattens to the concatenation of the parts, failing if either part fails |
| Coordinates.FlattenWrapped | fundamental_classes.py:67 | one more level of nesting changes nothing |
| Coordinates.FlattenPointArgs | fundamental_classes.py:56-72 | points given as `(x, y)` pairs flatten to `x1, y1, x2, y2, …`, the same as the flat form |
| Coordinates.PairsRoundTrip | fundamental_classes.py:95 | batching the flattened points in twos gives back the points |
| Coordinates.FlatPointsRoundTrip | fundamental_classes.py:95 | flattening the pairs of an even-length list gives back the list |
| Coordinates.Evens | fundamental_classes.py:78 | `xs[::2]` holds every even-indexed value, in order |
| Coordinates.Odds | fundamental_classes.py:78 | `xs[1::2]` holds every odd-indexed value, in order |
| Coordinates.Centroid | fundamental_classes.py:74-82 | the centroid exists exactly when there are at least two numbers; otherwise `mean` of an empty list raises StatisticsError |
| Coordinates.TranslateSplits | fundamental_classes.py:78 | translating the points shifts the x values by dx and the y values by dy |
| Coordinates.MeanShift | fundamental_classes.py:81 | adding d to every value adds d to the mean |
| Coordinates.CentroidTranslates | fundamental_classes.py:74-82 | translating every point by (dx, dy) translates the centroid by (dx, dy) |
| Coordinates.SortForPlottingOk | fundamental_classes.py:84-99 | the sort succeeds exactly for an even number (at least two) of coordinates, and then orders the distinct points by `atan2` about the centroid |
| Coordinates.SortForPlottingSpec | fundamental_classes.py:84-99 | fewer than two numbers give StatisticsError and an odd count gives ValueError; otherwise each distinct point comes out once, in non-decreasing angle, ties in first-occurrence order |
| Coordinates.SortKeepsDistinctCount | fundamental_classes.py:95-99 | the sorted result has one entry per distinct input point |
| Coordinates.Ring | fundamental_classes.py:113 | one side per vertex: side i joins vertex i to vertex i+1, and the last side closes back to the first vertex |
| Coordinates.SideLengthsSpec | fundamental_classes.py:108-113 | side lengths fail exactly when the sort fails; otherwise there is one side per distinct point, around the sorted outline |
| Coordinates.AllLike | fundamental_classes.py:106 | true exactly when every later value equals the first |
| Coordinates.AllEqual | fundamental_classes.py:101-106 | no arguments and a single argument both give true: `numbers[0]` is read only inside the generator |
| Coordinates.AllEqualSpec | fundamental_classes.py:101-106 | comparing each value with the first decides whether all values are pairwise equal, vacuously for none |
| Coordinates.AllEqualTo | fundamental_classes.py:101-106 | values that all equal one value pass the test |
| ComplexPlane.Div | fundamental_classes.py:252 | complex division fails with ZeroDivisionError exactly for a zero divisor; otherwise quotient times divisor is the dividend |
| ComplexPlane.RotatePoint | fundamental_classes.py:219 | multiplying by a unit complex number about a centre keeps the distance from the centre |
| ComplexPlane.RotatePoints | fundamental_classes.py:218-221 | one rotated point per input point, in order |
| ComplexPlane.RotateCompose | fundamental_classes.py:219 | rotating by u and then by v is rotating by v·u |
| ComplexPlane.RotatePointsCompose | fundamental_classes.py:218-221 | the same for a list of points |
| ComplexPlane.RotateByOne | fundamental_classes.py:219 | rotating by 1 changes nothing |
| ComplexPlane.RotateRoundTrip | fundamental_classes.py:219 | rotating by a unit u and then by its conjugate restores the point |
| ComplexPlane.RotatePointsRoundTrip | fundamental_classes.py:218-221 | the same for a list of points |
| ComplexPlane.RotateFixesCenter | fundamental_classes.py:219 | the centre of rotation stays in place |
| ComplexPlane.PointReflection | fundamental_classes.py:241-243 | rotation by -1 about c maps p to 2c − p |
| ComplexPlane.PointReflectionInvolution | fundamental_classes.py:241-243 | reflecting through a point twice restores the point |
| ComplexPlane.ReflectAcrossLine | fundamental_classes.py:245-254 | line reflection fails with ZeroDivisionError exactly when the two line points coincide |
| ComplexPlane.Turn | fundamental_classes.py:252 | for distinct line points, (p2 − p1)/conj(p2 − p1) is a unit complex number |
| ComplexPlane.ReflectByTurn | fundamental_classes.py:250-253 | the reflected point is conj(p − p1)·w + p1 for that unit w |
| ComplexPlane.ReflectAcrossLineInvolution | fundamental_classes.py:245-254 | reflecting twice across the same line gives back the point |
| ComplexPlane.ReflectAcrossLineFixes | fundamental_classes.py:245-254 | both points defining the line are fixed |
| Arcs.RadiansHalfTurn | fundamental_classes.py:243 | 180 degrees is π radians |
| Arcs.RadiansOpposite | fundamental_classes.py:219 | an angle and its negation turn by opposite amounts, in degrees or radians |
| Arcs.RoundHalfEven | fundamental_classes.py:279 | `round` gives a nearest integer, and on a tie the even one |
| Arcs.ArcPoints | fundamental_classes.py:262-284 | a negative axis or stop < start gives ValueError, a zero count ZeroDivisionError; otherwise exactly n points (none for negative n), point i at angle start + i·(stop − start)/n |
| Arcs.ArcAnglesBelowStop | fundamental_classes.py:281-284 | every sampled angle lies in [start, stop): the stop angle is excluded |
| Arcs.DefaultCountFullTurn | fundamental_classes.py:275-279 | over a full turn the default count is at least 64 for any non-negative axis |
| Arcs.DefaultCount | fundamental_classes.py:275-279 | the default count is never negative for a non-negative semi-axis and a non-empty span |
| Arcs.ArcPointOnCircle | fundamental_classes.py:283 | with both axes r, every sampled point lies at distance r from the centre |
| Surface.First | fundamental_classes.py:149 | the item `coords` addresses is the earliest one carrying the tag; none when no item carries it |
| Surface.SetCoords | fundamental_classes.py:153 | writing coordinates fails with TclError exactly when the tag addresses an item and an odd, non-empty list is given |
| Surface.SetCoordsThenCoords | fundamental_classes.py:147-153 | after a write, reading the coordinates gives what was written; only the addressed item changes and all tags stay |
| Surface.Create | shapes/triangles.py:14 | `create_polygon` appends one item with the given coordinates and tags, or fails with TclError for an odd coordinate count |
| Surface.ForTagged | fundamental_classes.py:161 | a tag-addressed update changes exactly the items carrying the tag |
| Surface.Without | fundamental_classes.py:166 | deleting a tag removes every copy of it and keeps every other tag; deleting an absent tag changes nothing |
| Surface.AddTagSpec | fundamental_classes.py:159-161 | every item carrying the tag gains the new tag and keeps the old one; other items and all coordinates are unchanged |
| Surface.AddTagIdempotent | fundamental_classes.py:159-161 | adding the same tag twice is the same as adding it once |
| Surface.DTagSpec | fundamental_classes.py:163-166 | every item carrying the tag loses the deleted tag and keeps its other tags; other items are unchanged |
| Surface.MoveCompose | fundamental_classes.py:196-198 | two moves compose into one move by the summed offsets |
| Surface.MoveBack | fundamental_classes.py:196-198 | moving by (−dx, −dy) undoes a move by (dx, dy) |
| Surface.ScaleByOne | fundamental_classes.py:206-211 | scaling by factors 1 and 1 changes nothing |
| Surface.ScaleCompose | fundamental_classes.py:206-211 | two scalings about the same point make one scaling by the products of the factors |
| Surface.ScaleBack | fundamental_classes.py:206-211 | scaling by the reciprocal factors undoes a scaling by non-zero factors |
| Surface.Min | fundamental_classes.py:189 | the minimum is no larger than any coordinate |
| Surface.MinIn | fundamental_classes.py:189 | the minimum is one of the coordinates |
| Surface.Max | fundamental_classes.py:189 | the maximum is no smaller than any coordinate |
| Surface.MaxIn | fundamental_classes.py:189 | the maximum is one of the coordinates |
| Surface.Bbox | fundamental_classes.py:187-189 | there is no bounding box exactly when the tagged items hold no whole point |
| Surface.BboxContains | fundamental_classes.py:187-189 | the bounding box contains every vertex of every tagged item |
| Surface.BoxCenter | fundamental_classes.py:191-194 | unpacking a missing box raises TypeError; otherwise the centre lies midway between the corners on each axis |
| Surface.WholePointsKept | fundamental_classes.py:151-211 | every canvas operation keeps each item's coordinate count even |
| Surface.Canvas.CreatePolygon | shapes/triangles.py:14 | the canvas gains the new item, or is left unchanged with TclError |
| Surface.Canvas.UpdateCoords | fundamental_classes.py:153 | the canvas becomes the coordinate write, or is left unchanged with TclError |
| Surface.Canvas.AddTagWithTag | fundamental_classes.py:161 | the canvas becomes the tag addition on every item carrying the tag |
| Surface.Canvas.DeleteTag | fundamental_classes.py:166 | the canvas becomes the tag deletion on every item carrying the tag |
| Surface.Canvas.ItemConfigTags | fundamental_classes.py:131 | every item carrying the tag gets the given tag list |
| Surface.Canvas.MoveItems | fundamental_classes.py:198 | every item carrying the tag is translated |
| Surface.Canvas.ScaleItems | fundamental_classes.py:211 | every item carrying the tag is scaled about the reference point |
| Polygon.Configured | fundamental_classes.py:115-131 | `config` fails exactly for an unusable `tags` value, with TypeError for a list holding a non-string and ValueError otherwise, and leaves the canvas alone when no tags are given |
| Polygon.ConfigKeepsId | fundamental_classes.py:119-129 | non-empty text or a non-empty list of strings as the `tags` option never takes the id tag off the shape's item |
| Polygon.ConfigEmptyTagsDropsId | fundamental_classes.py:121-131 | an empty `tags` option is passed on unchanged and clears every tag, the id tag included, so the shape no longer addresses its item |
| Polygon.ConfigFalsyDropsId | fundamental_classes.py:121-131 | a false `tags` value of another type (`0`, `False`, an empty dict) skips the merge; the item gets the tags Tk reads from it, and unless they name the id the shape no longer addresses its item |
| Polygon.Shape.constructor | fundamental_classes.py:21-24 | a shape records its canvas, its id tag and its kind |
| Polygon.Shape.Config | fundamental_classes.py:115-131 | the canvas becomes the merged-tags configuration, or stays unchanged on the option's TypeError or ValueError |
| Polygon.Shape.SetCoords | fundamental_classes.py:151-153 | non-numbers fail with TypeError and an odd count with TclError, both leaving the canvas unchanged; otherwise the shape's item gets the flattened coordinates |
| Polygon.Shape.AddTag | fundamental_classes.py:159-161 | the items carrying the shape's id gain the tag |
| Polygon.Shape.DTag | fundamental_classes.py:163-166 | the tag is deleted from the shape's items unless it is the id tag |
| Polygon.GuardedDTagSpec | fundamental_classes.py:163-166 | the id tag always survives `dtag`; any other requested tag is removed and every further tag is kept |
| Polygon.Shape.Move | fundamental_classes.py:196-198 | the shape's items are translated by (dx, dy) |
| Polygon.Shape.Scale | fundamental_classes.py:206-211 | the shape's items are scaled about the reference point |
| Polygon.Shape.Rotate | fundamental_classes.py:213-222 | the shape's first item is rotated about the centre by cis of the angle, converted from degrees when asked |
| Polygon.RotatedVertices | fundamental_classes.py:217-222 | every vertex is rotated about the centre, the coordinate count is kept, and every vertex keeps its distance from the centre |
| Polygon.RotatedRoundTrip | fundamental_classes.py:217-222 | rotating by u and then by conj(u) restores the canvas |
| Polygon.RotateBack | fundamental_classes.py:213-222 | rotating by an angle and then by its negation about the same centre restores the canvas |
| Polygon.Shape.ReflectAcrossAPoint | fundamental_classes.py:241-243 | point reflection is rotation by 180 degrees about the point |
| Polygon.PointReflectedTwice | fundamental_classes.py:241-243 | reflecting through the same point twice restores the canvas |
| Polygon.Rotated | fundamental_classes.py:217-222 | rotating a shape's item keeps whole points and the item count |
| Polygon.Reflected | fundamental_classes.py:224-239 | a successful reflection keeps whole points and the item count |
| Polygon.ReflectAll | fundamental_classes.py:259 | each point is replaced by its mirror image across the line, in order |
| Polygon.ReflectAllTwice | fundamental_classes.py:259 | mirroring a point list twice gives it back |
| Polygon.LineReflected | fundamental_classes.py:256-260 | line reflection fails with ZeroDivisionError exactly when the shape has coordinates and the two line points coincide |
| Polygon.Shape.ReflectAcrossALine | fundamental_classes.py:256-260 | the canvas becomes the line reflection of the shape's item, or stays unchanged on ZeroDivisionError |
| Polygon.LineReflectedTwice | fundamental_classes.py:256-260 | reflecting twice across the same line restores the canvas |
| Polygon.Shape.Reflect | fundamental_classes.py:224-239 | the canvas becomes the dispatched reflection, or stays unchanged on its error |
| Polygon.ReflectDispatch | fundamental_classes.py:232-239 | non-numbers give TypeError; two numbers reflect through a point, four across a line; any other count leaves the canvas unchanged without error |
| Polygon.Configure | fundamental_classes.py:28-29 | configuring a drawn shape fails exactly for unusable tags, with their TypeError or ValueError; otherwise it yields a fresh shape object with the given id |
| Polygon.Draw | fundamental_classes.py:24-29 | the polygon is appended tagged with the id alone, then configured; unusable tags fail with their TypeError or ValueError after the polygon is drawn |
| Polygon.DrawSorted | shapes/triangles.py:13-14 | exactly one id number is taken, and the polygon is drawn through the angle-sorted distinct vertices |
| Triangles.NewTriangle | shapes/triangles.py:7-14 | non-numbers give TypeError and any count other than six gives ValueError, before an id is taken; otherwise the sorted distinct vertices are drawn under a new id |
| Triangles.TriangleVertices | shapes/triangles.py:13-14 | the drawn polygon has one to three vertices, three exactly when the points are pairwise different |
| Triangles.TriangleArgumentForms | shapes/triangles.py:7-9 | the flat and the paired forms of three points flatten to the same six numbers |
| Quadrilaterals.NewQuadrilateral | shapes/quadrilaterals.py:7-31 | non-numbers give TypeError and any count other than eight gives ValueError, before an id is taken; otherwise the polygon is drawn and configured first, and the class's test then decides: accepted, ValueError, or the test's own error |
| Quadrilaterals.KiteSidesSpec | shapes/quadrilaterals.py:42-43 | by number of sides: none gives IndexError at `sides[0]`; one passes; two compare those two; three require all equal; four require the two adjacent pairs equal |
| Quadrilaterals.KiteSpec | shapes/quadrilaterals.py:33-43 | for eight numbers the kite test depends only on the distinct points: one or two points pass, three need equal sides, four need two pairs of equal adjacent sides |
| Quadrilaterals.DistanceSymmetric | shapes/quadrilaterals.py:42-43 | the distance from p to q equals the distance from q to p |
| Quadrilaterals.Slope | shapes/quadrilaterals.py:71 | a slope fails with ZeroDivisionError exactly for a vertical side |
| Quadrilaterals.SlopeRise | shapes/quadrilaterals.py:71 | the slope times the run is the rise |
| Quadrilaterals.SlopesMatch | shapes/quadrilaterals.py:71 | for non-vertical sides, equal slopes mean parallel sides |
| Quadrilaterals.TrapezoidSpec | shapes/quadrilaterals.py:55-73 | fewer than four distinct points fail the test; a vertical first or third side gives ZeroDivisionError; a parallel first pair passes; otherwise the second pair decides, again failing on a vertical side |
| Quadrilaterals.ParallelogramSpec | shapes/quadrilaterals.py:86-108 | as for the trapezoid, but the first parallel pair decides alone by comparing the lengths of its sides |
| Quadrilaterals.RhombusSpec | shapes/quadrilaterals.py:120-128 | a rhombus has exactly four sorted sides, all of equal length |
| Quadrilaterals.Radii | shapes/quadrilaterals.py:160 | one distance from the centroid per sorted vertex |
| Quadrilaterals.RectangleSpec | shapes/quadrilaterals.py:148-161 | a rectangle has four distinct points, all at the same distance from the centroid |
| Quadrilaterals.OneVertex | shapes/quadrilaterals.py:185-199 | eight numbers naming one point pass the square and kite tests and fail the rectangle and rhombus tests |
| Quadrilaterals.SquareSpec | shapes/quadrilaterals.py:185-199 | on eight numbers the square test passes if and only if every sorted vertex lies at one distance from the centroid and every side of the closed outline has one length; the number of vertices is not checked |
| Quadrilaterals.SquareTest | shapes/quadrilaterals.py:185-199 | vertices that all lie at one distance from the centroid, with all sides of one length, pass the square test |
| Quadrilaterals.Corners | shapes/quadrilaterals.py:144-145 | the corner builder makes four points |
| Quadrilaterals.CornersCentroid | shapes/quadrilaterals.py:144-145 | the corners of an a×b box at (x, y) have centroid (x + a/2, y + b/2) |
| Quadrilaterals.CornerRadius | shapes/quadrilaterals.py:144-145 | every corner lies at the same distance from that centroid |
| Quadrilaterals.CornersDistinct | shapes/quadrilaterals.py:144-145 | for non-zero sides the four corners are pairwise different |
| Quadrilaterals.SortedCorners | shapes/quadrilaterals.py:144-146 | for non-zero sides the angular sort keeps all four corners |
| Quadrilaterals.RectangleOfCorners | shapes/quadrilaterals.py:138-161 | the corners from `from_sides` pass the rectangle test exactly when both sides are non-zero |
| Quadrilaterals.FromSides | shapes/quadrilaterals.py:138-146 | `from_sides` draws the sorted corners under a new Rectangle id and succeeds exactly when the tags are usable and both sides are non-zero; unusable tags give their own error, a zero side ValueError |
| Quadrilaterals.SortFour | shapes/quadrilaterals.py:179-180 | four items whose keys increase in the order first, last, third, second are sorted into that order |
| Quadrilaterals.SquareSorted | shapes/quadrilaterals.py:179-180 | when `atan2` orders the corner directions as the real function does, the corners of a positive square sort as first, fourth, third, second corner |
| Quadrilaterals.CornersSorted | shapes/quadrilaterals.py:179-180 | the same ordering as a statement about the sort itself |
| Quadrilaterals.SquareRadii | shapes/quadrilaterals.py:197 | every sorted square corner lies at distance √(2h²) from the centre, where h is half the side |
| Quadrilaterals.SquareSides | shapes/quadrilaterals.py:193 | every side of the sorted square has squared length side² |
| Quadrilaterals.AxisDistance | shapes/quadrilaterals.py:193 | two points one side apart along an axis are at squared distance side² |
| Quadrilaterals.SquareOfCorners | shapes/quadrilaterals.py:173-199 | the corners of a positive square pass the square test |
| Quadrilaterals.FromSide | shapes/quadrilaterals.py:173-183 | `from_side` draws the sorted corners under a new Square id and succeeds exactly when the tags are usable and the corners pass the square test; with usable tags, side 0 succeeds, and so does a positive side when `atan2` orders the corner directions as the real function does |
| Ellipses.CenterPoint | shapes/ellipse_and_circle.py:14-22 | `center_point` is the bounding-box centre once the polygon exists and the stored centre before that |
| Ellipses.TaggedCoordsMove | fundamental_classes.py:196-198 | moving the items carrying a tag translates all their coordinates |
| Ellipses.TranslatedBox | fundamental_classes.py:187-189 | translating the points shifts the extremes on each axis by the offset |
| Ellipses.BboxMove | fundamental_classes.py:187-198 | after a move by (dx, dy) the bounding box is the old box shifted by (dx, dy) |
| Ellipses.CenterFollowsMove | shapes/ellipse_and_circle.py:14-22 | once drawn, `center_point` follows every move exactly |
| Ellipses.OutlineSpec | shapes/ellipse_and_circle.py:24-26 | the ellipse outline fails with ValueError exactly for a negative axis; otherwise it is the default number (at least 64) of points sampled over 0–360 degrees |
| Ellipses.CircleOutline | shapes/ellipse_and_circle.py:37 | with equal axes r ≥ 0, every outline point lies at distance r from the centre |
| Ellipses.NewEllipse | shapes/ellipse_and_circle.py:8-26 | the ellipse takes one id and draws its outline about `center_point`; a negative axis fails with ValueError after the id is taken but before anything is drawn; unusable tags fail after the drawing |
| Ellipses.NewCircle | shapes/ellipse_and_circle.py:34-51 | the inner Ellipse takes its id before the Circle, so a success advances the counter by two; an outline error stops after the Ellipse id; on success the circle's polygon is the ellipse's, handed over to the Circle's id |
| Ellipses.CircleItemTags | shapes/ellipse_and_circle.py:48-51 | after construction the circle adds exactly one polygon, which keeps the outline; it carries just the Circle's id when no tags are given, the option tags followed by the Circle's id for non-empty text or a list, and no tag at all for an empty string or list (as in Polygon.ConfigEmptyTagsDropsId), so the Circle cannot address it; a false value of another type leaves the tags Tk reads from it |
| Custom.Outline | shapes/custom_shapes.py:18-22 | the outline starts at (0, 0) and (0, side) and ends at (side, 0) |
| Custom.NewHypotenuse | shapes/custom_shapes.py:9-22 | a negative side or k < 1 fails with ValueError before an id is taken; otherwise the legs and arc are drawn under a new id with radius side·√k |
| Custom.FactoryArguments | shapes/custom_shapes.py:24-25 | the factory fails exactly when the side is 0, dividing r by it |
| Custom.FactoryRoundTrip | shapes/custom_shapes.py:24-25 | for side > 0 the factory recovers exactly the k the shape was made with |
| Custom.ZeroSideFails | shapes/custom_shapes.py:19-20 | side 0 passes validation, but drawing then fails with ZeroDivisionError in `cx / r` |
| Custom.Roots | shapes/custom_shapes.py:15-20 | for side > 0 and k ≥ 1, the radius satisfies r² = side²·k, the root argument is non-negative, and the arc centre is (side + √(2r² − side²))/2 |
| Custom.Geometry | shapes/custom_shapes.py:15-20 | for side > 0 and k ≥ 1, r > 0, the root argument 2r² − side² is non-negative, and √½ ≤ cx/r ≤ 1, so `acos` is defined |
| Custom.SweepBounds | shapes/custom_shapes.py:20 | the arc margin δ lies between 0 and 45 degrees, so the arc span is non-empty |
| Custom.OutlineOfArc | shapes/custom_shapes.py:18-22 | the outline is (0, 0), (0, side), the arc points from 180 + δ to 270 − δ, then (side, 0) |
| Custom.OutlineFailsOnlyOnZeroCount | shapes/custom_shapes.py:18-22 | a valid shape fails to draw only when the default arc count rounds to 0, with ZeroDivisionError |
| Custom.CircleThroughLegEnds | shapes/custom_shapes.py:19 | the circle about (cx, cx) with radius r passes through both leg ends (0, side) and (side, 0) |
| Custom.ArcOnCircle | shapes/custom_shapes.py:21 | every sampled arc point lies on that circle |
| Custom.HypotenuseIsCircular | shapes/custom_shapes.py:18-22 | every outline point after the corner (0, 0) lies on the circle through the leg ends |
| Cloning.TriangleFactory | shapes/triangles.py:16-17 | rebuilding a triangle appends one item tagged only with a new Triangle id, or changes nothing on failure |
| Cloning.QuadrilateralFactory | shapes/quadrilaterals.py:20-21 | rebuilding a quadrilateral appends one item tagged only with a new id of the same class; when no id is taken, nothing changes |
| Cloning.EllipseFactory | shapes/ellipse_and_circle.py:28-29 | rebuilding an ellipse appends one item tagged only with a new Ellipse id, or changes nothing on failure |
| Cloning.CircleFactory | shapes/ellipse_and_circle.py:53-54 | rebuilding a circle appends one item, or changes nothing on failure |
| Cloning.HypotenuseFactory | shapes/custom_shapes.py:24-25 | rebuilding the shape appends one item tagged only with a new id, or changes nothing on failure |
| Cloning.Factory | fundamental_classes.py:50 | every factory appends exactly one item, and all but the circle's leave the earlier items alone |
| Cloning.FactoryKind | shapes/ellipse_and_circle.py:28-29 | a rebuilt shape is of the same class as the original |
| Cloning.FactoryAppends | fundamental_classes.py:50 | with fresh ids, every factory keeps the earlier items and appends one item tagged only with the new id, which is the next id of the shape's class (for a circle the number after its inner ellipse's) |
| Cloning.CircleFactoryAppends | shapes/ellipse_and_circle.py:53-54 | with fresh ids, a rebuilt circle keeps the earlier items and leaves one new item tagged only with the new Circle id |
| Cloning.Retagged | fundamental_classes.py:51-52 | copying the tags and deleting the original id keeps the item count |
| Cloning.RetaggedCopiesTags | fundamental_classes.py:51-52 | the copy gets the original's tags without the original's id, followed by its own id, and no other item changes |
| Cloning.Adopt | fundamental_classes.py:51-53 | adopting the configuration and coordinates keeps the item count |
| Cloning.AdoptCopies | fundamental_classes.py:51-53 | the copy gets the original's coordinates (if it has any) and its tags without the original's id; no other item changes |
| Cloning.AdoptAppended | fundamental_classes.py:51-53 | the same for a copy just appended by its factory |
| Cloning.TriangleInstance | shapes/triangles.py:16-17 | the canvas and counter become those of the triangle factory; a success returns the shape with the new id |
| Cloning.QuadrilateralInstance | shapes/quadrilaterals.py:20-21 | the same for the quadrilateral classes |
| Cloning.EllipseInstance | shapes/ellipse_and_circle.py:28-29 | the same for ellipses, rebuilt about the current centre |
| Cloning.CircleInstance | shapes/ellipse_and_circle.py:53-54 | the same for circles, rebuilt about the current centre |
| Cloning.HypotenuseInstance | shapes/custom_shapes.py:24-25 | the same for the hypotenuse shape |
| Cloning.MakeInstance | fundamental_classes.py:50 | dispatching to the factory of the shape's kind |
| Cloning.HypotenuseCloneKind | shapes/custom_shapes.py:24-25 | a rebuilt hypotenuse shape has the same side and radius as the original |
| Cloning.Clone | fundamental_classes.py:46-54 | `clone` leaves the canvas and counter as the cloning step describes and returns a fresh shape of the same class with the new id |
| Cloning.CloneCopies | fundamental_classes.py:46-54 | a successful clone appends one item with the original's coordinates (when it has any) and tags, its id replaced by the clone's own; every earlier item is kept |
| Groups.Ids | fundamental_classes.py:312-313 | the members' id tags, in member order |
| Groups.TagEachSpec | fundamental_classes.py:309-313 | every item of a listed member gains the group tag; coordinates and existing tags are kept; other items are unchanged |
| Groups.UntagEachSpec | fundamental_classes.py:317-318 | every item of a listed member loses the group tag and keeps every other tag; other items are unchanged |
| Groups.Position | fundamental_classes.py:321 | the index of the first occurrence of a member |
| Groups.RemoveFirst | fundamental_classes.py:320-321 | `list.remove` takes away one occurrence and leaves a non-member list unchanged |
| Groups.RemoveFirstAt | fundamental_classes.py:321 | the occurrence removed is the first one |
| Groups.RemoveEach | fundamental_classes.py:317-321 | removal never adds members |
| Groups.RemoveEachCount | fundamental_classes.py:315-321 | removing a list of shapes takes away one occurrence per listed shape, as a multiset difference |
| Groups.DoubleMembership | fundamental_classes.py:315-321 | a member added twice stays a member after one removal, yet its items lose the group tag |
| Groups.RemoveStep | fundamental_classes.py:317-321 | removing i+1 shapes is removing i shapes and then the next |
| Groups.UntagStep | fundamental_classes.py:317-318 | untagging i+1 shapes is untagging i shapes and then a guarded `dtag` of the next |
| Groups.MapPoints | fundamental_classes.py:258-259 | one image per point, in order |
| Groups.MapCoords | fundamental_classes.py:218-222 | a point map on a coordinate list keeps its length |
| Groups.Remapped | fundamental_classes.py:258-260 | a point map on a shape's item keeps whole points and the item count |
| Groups.RemappedAt | fundamental_classes.py:258-260 | only the first item carrying the tag changes, and only in its coordinates |
| Groups.RotatedIsRemapped | fundamental_classes.py:217-222 | rotating a shape is a point map on its item |
| Groups.LineReflectedIsRemapped | fundamental_classes.py:256-260 | reflecting a shape across a line is a point map on its item |
| Groups.MapCoordsCommute | fundamental_classes.py:381-382 | commuting point maps commute on coordinate lists |
| Groups.MapCoordsUndo | fundamental_classes.py:381-382 | a point map followed by its inverse restores a coordinate list |
| Groups.RemapTwice | fundamental_classes.py:381-382 | two per-shape transforms in a row change exactly the addressed items, in order |
| Groups.RemapCommute | fundamental_classes.py:381-382 | transforms by commuting maps on two shapes can be applied in either order |
| Groups.RemapUndo | fundamental_classes.py:381-382 | a shape transform followed by its inverse restores the canvas |
| Groups.RemapEach | fundamental_classes.py:381-382 | transforming each member in turn keeps whole points and the item count |
| Groups.RemapThrough | fundamental_classes.py:381-382 | a transform of one shape commutes with a commuting transform of each member |
| Groups.RemapEachRoundTrip | fundamental_classes.py:381-382 | transforming every member and then applying the inverse to every member restores the canvas |
| Groups.GroupRotateBack | fundamental_classes.py:377-382 | rotating a group by an angle and then by its negation restores the canvas, duplicate members included |
| Groups.GroupPointReflectedTwice | fundamental_classes.py:384-393 | reflecting a group through a point twice restores the canvas |
| Groups.GroupLineReflectedTwice | fundamental_classes.py:384-393 | reflecting a group across a line twice restores the canvas |
| Groups.DuplicateReflectedBack | fundamental_classes.py:392-393 | a member listed twice is point-reflected twice, so it ends where it started |
| Groups.ReflectEach | fundamental_classes.py:392-393 | reflecting member after member keeps whole points and the item count |
| Groups.ReflectEachDispatch | fundamental_classes.py:384-393 | an empty group does nothing; non-numbers give TypeError with the canvas unchanged; two numbers reflect each member through the point; four numbers of distinct points reflect each member across the line; other counts do nothing |
| Groups.ReflectEachDegenerate | fundamental_classes.py:384-393 | reflecting across a line through two equal points changes nothing and fails with ZeroDivisionError exactly when some member has coordinates |
| Groups.ReflectEachStops | fundamental_classes.py:392-393 | the first failing member stops the loop; later members are untouched |
| Groups.GroupMoveReachesMembers | fundamental_classes.py:360-362 | after tagging, a group move translates every item of every member |
| Groups.CloneStepOf | fundamental_classes.py:399 | the cloning step applied to each member is the clone of that member |
| Groups.CloneEach | fundamental_classes.py:399 | cloning the members one by one yields one clone id per member, or the first error |
| Groups.CloneEachNext | fundamental_classes.py:399 | cloning i+1 members is cloning i members and then cloning the next |
| Groups.CloneEachStops | fundamental_classes.py:399 | the first failed clone stops the list comprehension |
| Groups.CloneJoinsGroups | fundamental_classes.py:51-52 | a clone carries the group tags of the original but not its id tag |
| Groups.Group.constructor | fundamental_classes.py:295-298 | a new group takes the next Group id, lists the shapes in order, and tags their items with its id |
| Groups.Group.AddGraphics | fundamental_classes.py:309-313 | members become the old members followed by the new shapes, duplicates kept, and every member's items carry the group tag |
| Groups.Group.RemoveGraphics | fundamental_classes.py:315-321 | each listed shape loses the group tag, and one occurrence of it leaves the member list; non-members change nothing |
| Groups.Group.RemoveOne | fundamental_classes.py:317-321 | one step of that loop: guarded `dtag` and removal of the first occurrence |
| Groups.Group.GetCanvas | fundamental_classes.py:323-330 | an empty group fails with ValueError; otherwise the canvas of its members |
| Groups.Group.Bbox | fundamental_classes.py:349-353 | an empty group fails with ValueError; otherwise the box around every item carrying the group tag |
| Groups.Group.BboxCenter | fundamental_classes.py:355-358 | an empty group fails with ValueError; otherwise the centre of that box |
| Groups.Group.Move | fundamental_classes.py:360-362 | an empty group fails with ValueError and nothing moves; otherwise every item carrying the group tag is translated |
| Groups.Group.Scale | fundamental_classes.py:370-375 | an empty group fails with ValueError; otherwise every item carrying the group tag is scaled |
| Groups.Group.Rotate | fundamental_classes.py:377-382 | the members are rotated one by one in list order, a member listed twice being rotated twice |
| Groups.Group.Reflect | fundamental_classes.py:384-393 | the members are reflected one by one in list order, stopping at the first error |
| Groups.Group.Clone | fundamental_classes.py:395-399 | every member is cloned in order; when all succeed, a new group with the next Group id holds the clones and tags them |
| Groups.CloneAll | fundamental_classes.py:399 | the loop over the members leaves canvas and counter as the one-by-one cloning describes and returns the clones, all on the same canvas |

## Left out

- `bind` and `unbind` on shapes and groups (fundamental_classes.py:170-185, 332-347) hand event handlers to Tk. No event loop is modelled.
- `moveto` on shapes and groups (fundamental_classes.py:200-204, 364-368) places the bounding box by Tk's rounded, padded box, which is not modelled.
- `cget` and `all_cget` are modelled only for the `tags` option.
  - The `fill`, `outline` and `width` options are not modelled: neither their defaults from the constructor nor their copying in `clone`.
  - A clone copies tags and coordinates only.
- `Group.__bool__` and `Group.__iter__` only expose the member list, which the model keeps as the `members` field. `__contains__` is the predicate `Groups.Group.Contains`.
- Tk's own arithmetic is left out:
  - bounding boxes are the exact extremes of the coordinates, without Tk's integer rounding and padding by the outline width;
  - `move` and `scale` are exact.
- Floating point is left out: numbers are exact reals and `isclose` is exact equality. The relative tolerance of `_all_equal` is therefore not modelled.
- `cos`, `sin`, `atan2`, `sqrt` and `acos` are parameters.
  - Results that need their laws assume `Arcs.Exact` or `Custom.AcosLaws`.
  - `FromSide` and `SquareOfCorners` also assume that `atan2` orders the four corner directions of a square as the real function does (`Quadrilaterals.CornerAngles`).
- Tags containing spaces are not modelled: a tag string is read back by splitting at spaces, and every tag the library itself makes is spaceless.
- How Tk reads a false `tags` value that is not a string or a list (`0`, `False`, an empty dict) is not modelled. `Tags.TagsOption.Falsy` carries the resulting tag list as a parameter. A `tags=None` option is dropped by Tkinter, so it counts as absent.
- Groups whose members lie on different canvases are not modelled. Each group has one canvas, and its operations require every member to be on it.
- `create_polygon` and `coords` accept any even number of coordinates, as Tk does.
- `Square.from_side` assigns `_vertices_coords` again after construction (shapes/quadrilaterals.py:182). Nothing reads that field afterwards, so it is left out.
- `center_point` catches `AttributeError` as well as `TypeError`. Only the `TypeError` of unpacking a missing bounding box is modelled.
- The demo applications are GUI scripts and are not part of this model.
- Groups.Group.Clone requires two distinct counters, one for shapes and one for groups. In the library these are two separate class attributes.
- Cloning.CloneCopies, Cloning.FactoryAppends and Groups.CloneJoinsGroups require that the new ids are not already on the canvas. Library-made ids never repeat (`Identifiers.IdInjective`), so this fails only if a user hand-tags an item with a future id.
- Polygon.Shape.Rotate, Groups.Group.Rotate and the other transforms require every item to hold whole points (`Surface.WholePoints`). This is an invariant of the canvas that every canvas operation keeps (`Surface.WholePointsKept`).
- Cloning.Factory states only that one item is appended. The content of the appended item is stated by `Cloning.FactoryAppends`, under the fresh-id premise.
- Cloning.Retagged and Cloning.Adopt state only the item count. Their content is stated by `Cloning.RetaggedCopiesTags` and `Cloning.AdoptCopies`.
- Quadrilaterals.FromSide states success for side 0 and for positive sides, the latter under the `atan2` premise above. For a negative side it states only that success means passing the square test.
- `dtag` removes a tag and keeps the remaining tags in their order. This is how `Surface.DTag` and `Cloning.RetaggedCopiesTags` state it. The source does not fix this order. Tk's tag order after `dtag` is not modelled, and Tk releases have not all kept it.
