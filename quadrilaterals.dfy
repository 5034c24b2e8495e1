/** The quadrilateral classes. Each takes exactly four points, draws them in
    angular order, and only then tests the shape its class promises; a
    failed test raises after the polygon is already on the canvas. */
module Quadrilaterals {
  import opened Outcomes
  import opened Ordering
  import opened Coordinates
  import opened Tags
  import opened Identifiers
  import opened Surface
  import opened Polygon

  predicate IsQuadrilateralClass(c: ShapeClass) {
    c.Quadrilateral? || c.Kite? || c.Trapezoid? || c.Parallelogram? || c.Rhombus? || c.Rectangle? || c.Square?
  }

  /** Python's `s[i:j]` for `i <= j`: the end is clamped to the length. */
  function Slice<T>(s: seq<T>, i: nat, j: nat): seq<T>
    requires i <= j
  {
    if |s| <= i then [] else if |s| <= j then s[i..] else s[i..j]
  }

  lemma DistanceSymmetric(p: Point, q: Point)
    ensures Distance(p, q) == Distance(q, p)
  {
    assert (p.0 - q.0) * (p.0 - q.0) == (q.0 - p.0) * (q.0 - p.0);
    assert (p.1 - q.1) * (p.1 - q.1) == (q.1 - p.1) * (q.1 - p.1);
  }

  // ---------------------------------------------------------------------
  // Kite.

  /** `_is_kite`. The `and` of the four-sides guard binds tighter than the
      `or`, so the second alternative is also tried on fewer than four sides.
      For one distinct point `sides[1:3]` is empty, which `_all_equal` accepts,
      and `sides[0]` equals `sides[-1]`, so one point passes. */
  function IsKite(xs: seq<real>, atan2: (real, real) -> real): Result<bool> {
    var sides := SideLengths(xs, atan2);
    if sides.Err? then Err(sides.error) else KiteSides(sides.value)
  }

  /** The kite test on the side lengths in drawing order. */
  function KiteSides(s: seq<Length>): Result<bool> {
    if |s| == 4 && AllEqual(s[..2]) && AllEqual(s[2..]) then Ok(true)
    else if !AllEqual(Slice(s, 1, 3)) then Ok(false)
    else if s == [] then Err(IndexError)
    else Ok(AllEqual([s[0], s[|s| - 1]]))
  }

  /** The kite test by the number of sides. Only an empty side list, which
      `side_lengths` never returns, fails: on `sides[0]`. */
  lemma KiteSidesSpec(s: seq<Length>)
    requires |s| <= 4
    ensures |s| == 0 ==> KiteSides(s) == Err(IndexError)
    ensures |s| == 1 ==> KiteSides(s) == Ok(true)
    ensures |s| == 2 ==> KiteSides(s) == Ok(s[0] == s[1])
    ensures |s| == 3 ==> KiteSides(s) == Ok(s[0] == s[1] && s[1] == s[2])
    ensures |s| == 4 ==> KiteSides(s) == Ok((s[0] == s[1] && s[2] == s[3]) || (s[1] == s[2] && s[3] == s[0]))
  {
    if |s| == 1 {
      assert Slice(s, 1, 3) == [];
    } else if |s| == 2 {
      assert Slice(s, 1, 3) == [s[1]];
    } else if |s| == 3 {
      assert Slice(s, 1, 3) == [s[1], s[2]];
    } else if |s| == 4 {
      assert Slice(s, 1, 3) == [s[1], s[2]];
      assert s[..2] == [s[0], s[1]] && s[2..] == [s[2], s[3]];
    }
  }

  /** On four distinct vertices the test accepts two pairs of equal adjacent
      sides. Fewer distinct vertices are not rejected: one and two are always
      accepted, three are accepted when all sides are equal. */
  lemma KiteSpec(xs: seq<real>, atan2: (real, real) -> real)
    requires |xs| == 8
    ensures SideLengths(xs, atan2).Ok?
    ensures 1 <= |Dedup(Pairs(xs))| == |SideLengths(xs, atan2).value| <= 4
    ensures var n := |Dedup(Pairs(xs))|; var s := SideLengths(xs, atan2).value;
      && (n == 1 ==> IsKite(xs, atan2) == Ok(true))
      && (n == 2 ==> IsKite(xs, atan2) == Ok(true))
      && (n == 3 ==> IsKite(xs, atan2) == Ok(s[0] == s[1] && s[1] == s[2]))
      && (n == 4 ==> IsKite(xs, atan2) == Ok((s[0] == s[1] && s[2] == s[3]) || (s[1] == s[2] && s[3] == s[0])))
  {
    SideLengthsSpec(xs, atan2);
    DedupNoLonger(Pairs(xs));
    var s := SideLengths(xs, atan2).value;
    KiteSidesSpec(s);
    if |s| == 2 {
      var ps := SortForPlotting(xs, atan2).value;
      DistanceSymmetric(ps[0], ps[1]);
    }
  }

  // ---------------------------------------------------------------------
  // Trapezoid and parallelogram.

  /** The slope `(q.y - p.y) / (q.x - p.x)`; a vertical side divides by zero. */
  function Slope(p: Point, q: Point): (r: Result<real>)
    ensures r.Err? <==> p.0 == q.0
    ensures r.Err? ==> r.error == ZeroDivisionError
  {
    if q.0 - p.0 == 0.0 then Err(ZeroDivisionError) else Ok((q.1 - p.1) / (q.0 - p.0))
  }

  /** The slope is the rise over the run. */
  lemma SlopeRise(p: Point, q: Point)
    requires p.0 != q.0
    ensures Slope(p, q).value * (q.0 - p.0) == q.1 - p.1
  {
  }

  /** The segments `pq` and `rs` are parallel: their cross product vanishes. */
  predicate Parallel(p: Point, q: Point, r: Point, s: Point) {
    (q.0 - p.0) * (s.1 - r.1) == (q.1 - p.1) * (s.0 - r.0)
  }

  /** Equal slopes mean parallel sides, for sides that are not vertical. */
  lemma SlopesMatch(p: Point, q: Point, r: Point, s: Point)
    requires p.0 != q.0 && r.0 != s.0
    ensures Slope(p, q).value == Slope(r, s).value <==> Parallel(p, q, r, s)
  {
    SlopeRise(p, q);
    SlopeRise(r, s);
    var m, n := Slope(p, q).value, Slope(r, s).value;
    var u, v := q.0 - p.0, s.0 - r.0;
    CrossProducts(m, n, u, v, u * v);
  }

  lemma CrossProducts(m: real, n: real, u: real, v: real, uv: real)
    requires u != 0.0 && v != 0.0 && uv == u * v
    ensures m == n <==> u * (n * v) == (m * u) * v
  {
    assert u * (n * v) == n * uv && (m * u) * v == m * uv;
    if m != n {
      assert uv != 0.0;
      assert n * uv - m * uv == (n - m) * uv;
    }
  }

  /** `is_trapezoid`: on four distinct vertices in plotting order, the first
      and third sides, or else the second and fourth, have equal slopes. */
  function IsTrapezoid(xs: seq<real>, atan2: (real, real) -> real): Result<bool> {
    var sorted := SortForPlotting(xs, atan2);
    if sorted.Err? then Err(sorted.error)
    else
      var ps := sorted.value;
      if |ps| != 4 then Ok(false)
      else
        var m12, m34 := Slope(ps[0], ps[1]), Slope(ps[2], ps[3]);
        if m12.Err? then Err(m12.error)
        else if m34.Err? then Err(m34.error)
        else if m12.value == m34.value then Ok(true)
        else
          var m23, m14 := Slope(ps[1], ps[2]), Slope(ps[0], ps[3]);
          if m23.Err? then Err(m23.error)
          else if m14.Err? then Err(m14.error)
          else Ok(m23.value == m14.value)
  }

  /** A trapezoid has a pair of parallel opposite sides; a vertical side met
      on the way raises ZeroDivisionError, which the constructor does not catch. */
  lemma TrapezoidSpec(xs: seq<real>, atan2: (real, real) -> real)
    requires |xs| == 8
    ensures SortForPlotting(xs, atan2).Ok?
    ensures var ps := SortForPlotting(xs, atan2).value;
      && (|ps| != 4 ==> IsTrapezoid(xs, atan2) == Ok(false))
      && (|ps| == 4 && (ps[0].0 == ps[1].0 || ps[2].0 == ps[3].0) ==>
            IsTrapezoid(xs, atan2) == Err(ZeroDivisionError))
      && (|ps| == 4 && ps[0].0 != ps[1].0 && ps[2].0 != ps[3].0 && Parallel(ps[0], ps[1], ps[2], ps[3]) ==>
            IsTrapezoid(xs, atan2) == Ok(true))
      && (|ps| == 4 && ps[0].0 != ps[1].0 && ps[2].0 != ps[3].0 && !Parallel(ps[0], ps[1], ps[2], ps[3]) ==>
            IsTrapezoid(xs, atan2) ==
              if ps[1].0 == ps[2].0 || ps[0].0 == ps[3].0 then Err(ZeroDivisionError)
              else Ok(Parallel(ps[1], ps[2], ps[0], ps[3])))
  {
    SortForPlottingSpec(xs, atan2);
    var ps := SortForPlotting(xs, atan2).value;
    if |ps| == 4 {
      if ps[0].0 != ps[1].0 && ps[2].0 != ps[3].0 {
        SlopesMatch(ps[0], ps[1], ps[2], ps[3]);
        if ps[1].0 != ps[2].0 && ps[0].0 != ps[3].0 {
          SlopesMatch(ps[1], ps[2], ps[0], ps[3]);
        }
      }
    }
  }

  /** `_is_parallelogram`: if the first and third sides have equal slopes
      they must also have equal lengths; otherwise the second and fourth
      sides must have equal slopes and equal lengths. */
  function IsParallelogram(xs: seq<real>, atan2: (real, real) -> real): Result<bool> {
    var sorted := SortForPlotting(xs, atan2);
    if sorted.Err? then Err(sorted.error)
    else
      var ps := sorted.value;
      if |ps| != 4 then Ok(false)
      else
        var m12, m34 := Slope(ps[0], ps[1]), Slope(ps[2], ps[3]);
        if m12.Err? then Err(m12.error)
        else if m34.Err? then Err(m34.error)
        else if m12.value == m34.value then Ok(Distance(ps[0], ps[1]) == Distance(ps[2], ps[3]))
        else
          var m23, m14 := Slope(ps[1], ps[2]), Slope(ps[0], ps[3]);
          if m23.Err? then Err(m23.error)
          else if m14.Err? then Err(m14.error)
          else Ok(m23.value == m14.value && Distance(ps[1], ps[2]) == Distance(ps[3], ps[0]))
  }

  /** A parallelogram has a pair of parallel opposite sides of equal length;
      when the first pair is parallel but of unequal lengths the second pair
      is not looked at. */
  lemma ParallelogramSpec(xs: seq<real>, atan2: (real, real) -> real)
    requires |xs| == 8
    ensures SortForPlotting(xs, atan2).Ok?
    ensures var ps := SortForPlotting(xs, atan2).value;
      && (|ps| != 4 ==> IsParallelogram(xs, atan2) == Ok(false))
      && (|ps| == 4 && (ps[0].0 == ps[1].0 || ps[2].0 == ps[3].0) ==>
            IsParallelogram(xs, atan2) == Err(ZeroDivisionError))
      && (|ps| == 4 && ps[0].0 != ps[1].0 && ps[2].0 != ps[3].0 && Parallel(ps[0], ps[1], ps[2], ps[3]) ==>
            IsParallelogram(xs, atan2) == Ok(Distance(ps[0], ps[1]) == Distance(ps[2], ps[3])))
      && (|ps| == 4 && ps[0].0 != ps[1].0 && ps[2].0 != ps[3].0 && !Parallel(ps[0], ps[1], ps[2], ps[3]) ==>
            IsParallelogram(xs, atan2) ==
              if ps[1].0 == ps[2].0 || ps[0].0 == ps[3].0 then Err(ZeroDivisionError)
              else Ok(Parallel(ps[1], ps[2], ps[0], ps[3]) && Distance(ps[1], ps[2]) == Distance(ps[3], ps[0])))
  {
    SortForPlottingSpec(xs, atan2);
    var ps := SortForPlotting(xs, atan2).value;
    if |ps| == 4 {
      if ps[0].0 != ps[1].0 && ps[2].0 != ps[3].0 {
        SlopesMatch(ps[0], ps[1], ps[2], ps[3]);
        if ps[1].0 != ps[2].0 && ps[0].0 != ps[3].0 {
          SlopesMatch(ps[1], ps[2], ps[0], ps[3]);
        }
      }
    }
  }

  // ---------------------------------------------------------------------
  // Rhombus, rectangle and square.

  /** `_is_rhombus`: four distinct vertices and four equal sides. */
  function IsRhombus(xs: seq<real>, atan2: (real, real) -> real): Result<bool> {
    var sides := SideLengths(xs, atan2);
    if sides.Err? then Err(sides.error)
    else
      SideLengthsSpec(xs, atan2);
      Ok(|sides.value| == 4 && AllEqual(sides.value))
  }

  /** On eight numbers the rhombus test answers whether there are four
      distinct vertices and all sides are equal. */
  lemma RhombusSpec(xs: seq<real>, atan2: (real, real) -> real)
    requires |xs| == 8
    ensures SideLengths(xs, atan2).Ok?
    ensures IsRhombus(xs, atan2) == Ok(var s := SideLengths(xs, atan2).value;
      |Dedup(Pairs(xs))| == 4 && forall i, j :: 0 <= i < |s| && 0 <= j < |s| ==> s[i] == s[j])
  {
    SideLengthsSpec(xs, atan2);
    AllEqualSpec(SideLengths(xs, atan2).value);
  }

  /** The distance of each vertex from the centre. */
  function Radii(c: Point, ps: seq<Point>): (r: seq<Length>)
    ensures |r| == |ps| && forall i :: 0 <= i < |ps| ==> r[i] == Distance(c, ps[i])
  {
    seq(|ps|, i requires 0 <= i < |ps| => Distance(c, ps[i]))
  }

  /** `_is_rectangle`: four distinct vertices, all at the same distance from
      the centroid of the given coordinates (repeated points included). */
  function IsRectangle(xs: seq<real>, atan2: (real, real) -> real): Result<bool> {
    var sorted := SortForPlotting(xs, atan2);
    if sorted.Err? then Err(sorted.error)
    else if |sorted.value| != 4 then Ok(false)
    else Ok(AllEqual(Radii(Centroid(xs).value, sorted.value)))
  }

  /** On eight numbers the rectangle test answers whether there are four
      distinct vertices, all equally far from the centroid. */
  lemma RectangleSpec(xs: seq<real>, atan2: (real, real) -> real)
    requires |xs| == 8
    ensures SortForPlotting(xs, atan2).Ok? && Centroid(xs).Ok?
    ensures IsRectangle(xs, atan2) == Ok(var ps := SortForPlotting(xs, atan2).value; var c := Centroid(xs).value;
      |ps| == 4 && forall i, j :: 0 <= i < 4 && 0 <= j < 4 ==> Distance(c, ps[i]) == Distance(c, ps[j]))
  {
    SortForPlottingOk(xs, atan2);
    SortKeepsDistinctCount(xs, atan2);
    DistinctCount(Pairs(xs));
    AllEqualSpec(Radii(Centroid(xs).value, SortForPlotting(xs, atan2).value));
  }

  /** `_is_square`: all vertices equally far from the centroid and all sides
      equal, with no check that there are four vertices. `side_lengths`
      repeats the same sort, so the sides are the ring through `sorted`. */
  function IsSquare(xs: seq<real>, atan2: (real, real) -> real): Result<bool> {
    var sorted := SortForPlotting(xs, atan2);
    if sorted.Err? then Err(sorted.error)
    else
      Ok(AllEqual(Radii(Centroid(xs).value, sorted.value)) && AllEqual(Ring(sorted.value)))
  }

  /** On eight numbers the square test answers whether every sorted vertex
      is equally far from the centroid and every side of the closed outline
      has the same length; there is no check that there are four vertices. */
  lemma SquareSpec(xs: seq<real>, atan2: (real, real) -> real)
    requires |xs| == 8
    ensures SortForPlotting(xs, atan2).Ok? && Centroid(xs).Ok?
    ensures IsSquare(xs, atan2) == Ok(var ps := SortForPlotting(xs, atan2).value; var c := Centroid(xs).value;
      && (forall i, j :: 0 <= i < |ps| && 0 <= j < |ps| ==> Distance(c, ps[i]) == Distance(c, ps[j]))
      && (forall i, j :: 0 <= i < |ps| && 0 <= j < |ps| ==> Ring(ps)[i] == Ring(ps)[j]))
  {
    SortForPlottingOk(xs, atan2);
    var ps := SortForPlotting(xs, atan2).value;
    AllEqualSpec(Radii(Centroid(xs).value, ps));
    AllEqualSpec(Ring(ps));
  }

  /** Four points that coincide pass the square and kite tests but not the
      rectangle or rhombus tests. */
  lemma OneVertex(xs: seq<real>, atan2: (real, real) -> real)
    requires |xs| == 8 && |Dedup(Pairs(xs))| == 1
    ensures IsSquare(xs, atan2) == Ok(true)
    ensures IsRectangle(xs, atan2) == Ok(false)
    ensures IsRhombus(xs, atan2) == Ok(false)
    ensures IsKite(xs, atan2) == Ok(true)
  {
    SideLengthsSpec(xs, atan2);
    SortKeepsDistinctCount(xs, atan2);
    KiteSpec(xs, atan2);
    RhombusSpec(xs, atan2);
    RectangleSpec(xs, atan2);
  }

  // ---------------------------------------------------------------------
  // Construction.

  /** The test a quadrilateral class runs after drawing. */
  function Accepts(cls: ShapeClass, xs: seq<real>, atan2: (real, real) -> real): Result<bool> {
    match cls
    case Kite => IsKite(xs, atan2)
    case Trapezoid => IsTrapezoid(xs, atan2)
    case Parallelogram => IsParallelogram(xs, atan2)
    case Rhombus => IsRhombus(xs, atan2)
    case Rectangle => IsRectangle(xs, atan2)
    case Square => IsSquare(xs, atan2)
    case _ => Ok(true)
  }

  /** `cls(canvas, *vertex_points, **options)` for a quadrilateral class:
      anything but eight numbers is refused before an id is taken; then the
      polygon is drawn through the distinct points in angular order and
      configured; then the class's test runs, and an error it raises or a
      negative answer leaves the polygon on the canvas. */
  method NewQuadrilateral(canvas: Canvas, counter: IdCounter, cls: ShapeClass, args: seq<Coord>,
                          options: TagsOption, atan2: (real, real) -> real) returns (r: Result<Shape>)
    requires IsQuadrilateralClass(cls)
    modifies canvas, counter
    ensures Flatten(args).Err? ==> r == Err(TypeError) && unchanged(canvas, counter)
    ensures Flatten(args).Ok? && |Flatten(args).value| != 8 ==> r == Err(ValueError) && unchanged(canvas, counter)
    ensures Flatten(args).Ok? && |Flatten(args).value| == 8 ==>
      var xs := Flatten(args).value;
      var id := Id(cls.Name(), old(counter.next));
      var drawn := old(canvas.items) + [Item(FlatPoints(SortForPlotting(xs, atan2).value), [id])];
      var test := Accepts(cls, xs, atan2);
      && counter.next == old(counter.next) + 1
      && (options.Raises() ==> r == Err(options.Raised()) && canvas.items == drawn)
      && (!options.Raises() ==>
            && canvas.items == Configured(drawn, id, options).value
            && (r.Ok? <==> test == Ok(true))
            && (test.Err? ==> r == Err(test.error))
            && (test == Ok(false) ==> r == Err(ValueError)))
    ensures r.Ok? ==> && fresh(r.value) && r.value.canvas == canvas && r.value.kind == Polygonal(cls)
                      && r.value.idTag == Id(cls.Name(), old(counter.next))
  {
    FlattenFailsOnNonNumbers(args);
    var xs := Flatten(args);
    if xs.Err? {
      return Err(xs.error);
    }
    if |xs.value| != 8 {
      return Err(ValueError);
    }
    r := DrawSorted(canvas, counter, cls, xs.value, options, atan2);
    if r.Err? {
      return;
    }
    var test := Accepts(cls, xs.value, atan2);
    if test.Err? {
      return Err(test.error);
    }
    if !test.value {
      return Err(ValueError);
    }
  }

  /** The corners of the axis-parallel rectangle with sides `a`, `b` and
      upper-left corner `(x, y)`, in the order `from_sides` lists them. */
  function Corners(x: real, y: real, a: real, b: real): (cs: seq<Point>)
    ensures |cs| == 4
  {
    [(x, y), (x + a, y), (x + a, y + b), (x, y + b)]
  }

  lemma SumOfFour(s: seq<real>)
    requires |s| == 4
    ensures Sum(s) == s[0] + s[1] + s[2] + s[3]
  {
    assert s[3..][1..] == [];
    assert Sum(s[3..]) == s[3];
    assert s[2..][1..] == s[3..];
    assert Sum(s[2..]) == s[2] + s[3];
    assert s[1..][1..] == s[2..];
    assert Sum(s[1..]) == s[1] + s[2] + s[3];
  }

  /** The centroid of the corners is the centre of the rectangle. */
  lemma CornersCentroid(x: real, y: real, a: real, b: real)
    ensures Centroid(FlatPoints(Corners(x, y, a, b))) == Ok((x + a / 2.0, y + b / 2.0))
  {
    var cs := Corners(x, y, a, b);
    var xs := FlatPoints(cs);
    var e, o := Evens(xs), Odds(xs);
    assert xs[0] == x && xs[2] == x + a && xs[4] == x + a && xs[6] == x;
    assert xs[1] == y && xs[3] == y && xs[5] == y + b && xs[7] == y + b;
    assert e[0] == xs[0] && e[1] == xs[2] && e[2] == xs[4] && e[3] == xs[6];
    assert o[0] == xs[1] && o[1] == xs[3] && o[2] == xs[5] && o[3] == xs[7];
    SumOfFour(e);
    SumOfFour(o);
    assert |e| == 4 && |o| == 4;
    assert Mean(e) == (4.0 * x + 2.0 * a) / 4.0;
    assert Mean(o) == (4.0 * y + 2.0 * b) / 4.0;
  }

  /** Every corner is at the same distance from the centre. */
  lemma CornerRadius(x: real, y: real, a: real, b: real, p: Point)
    requires p in Corners(x, y, a, b)
    ensures Distance((x + a / 2.0, y + b / 2.0), p).square == (a / 2.0) * (a / 2.0) + (b / 2.0) * (b / 2.0)
  {
    var h, k := a / 2.0, b / 2.0;
    assert (-h) * (-h) == h * h && (-k) * (-k) == k * k;
  }

  lemma CornersDistinct(x: real, y: real, a: real, b: real)
    requires a != 0.0 && b != 0.0
    ensures NoDups(Corners(x, y, a, b))
  {
    var cs := Corners(x, y, a, b);
    assert cs[0] != cs[1] && cs[0] != cs[2] && cs[0] != cs[3];
    assert cs[1] != cs[2] && cs[1] != cs[3] && cs[2] != cs[3];
  }

  /** Sorting distinct corners draws each of them once. */
  lemma SortedCorners(x: real, y: real, a: real, b: real, atan2: (real, real) -> real)
    requires a != 0.0 && b != 0.0
    ensures SortForPlotting(FlatPoints(Corners(x, y, a, b)), atan2).Ok?
    ensures var ps := SortForPlotting(FlatPoints(Corners(x, y, a, b)), atan2).value;
      |ps| == 4 && forall i :: 0 <= i < 4 ==> ps[i] in Corners(x, y, a, b)
  {
    var cs := Corners(x, y, a, b);
    var xs := FlatPoints(cs);
    PairsRoundTrip(cs);
    CornersDistinct(x, y, a, b);
    DedupOfDistinct(cs);
    SortKeepsDistinctCount(xs, atan2);
    SortForPlottingSpec(xs, atan2);
  }

  /** The rectangle test accepts the corners of `from_sides` exactly when
      both sides are non-zero, whatever the angular order. */
  lemma RectangleOfCorners(x: real, y: real, a: real, b: real, atan2: (real, real) -> real)
    ensures IsRectangle(FlatPoints(Corners(x, y, a, b)), atan2) == Ok(a != 0.0 && b != 0.0)
  {
    var cs := Corners(x, y, a, b);
    var xs := FlatPoints(cs);
    CornersCentroid(x, y, a, b);
    RectangleSpec(xs, atan2);
    if a != 0.0 && b != 0.0 {
      SortedCorners(x, y, a, b, atan2);
      var ps := SortForPlotting(xs, atan2).value;
      var c := (x + a / 2.0, y + b / 2.0);
      forall i | 0 <= i < 4
        ensures Distance(c, ps[i]).square == (a / 2.0) * (a / 2.0) + (b / 2.0) * (b / 2.0)
      {
        CornerRadius(x, y, a, b, ps[i]);
      }
    } else {
      PairsRoundTrip(cs);
      SortKeepsDistinctCount(xs, atan2);
      if a == 0.0 {
        DedupShrinks(cs, 0, 1);
      } else {
        DedupShrinks(cs, 0, 3);
      }
    }
  }

  /** `Rectangle.from_sides`: the rectangle with sides `a` along x and `b`
      along y from the upper-left corner `(x, y)`. */
  method FromSides(canvas: Canvas, counter: IdCounter, a: real, b: real, x: real, y: real,
                   options: TagsOption, atan2: (real, real) -> real) returns (r: Result<Shape>)
    modifies canvas, counter
    ensures var cs := Corners(x, y, a, b);
      var id := Id(Rectangle.Name(), old(counter.next));
      var drawn := old(canvas.items) + [Item(FlatPoints(SortForPlotting(FlatPoints(cs), atan2).value), [id])];
      && counter.next == old(counter.next) + 1
      && (r.Ok? <==> !options.Raises() && a != 0.0 && b != 0.0)
      && (options.Raises() ==> r == Err(options.Raised()) && canvas.items == drawn)
      && (!options.Raises() ==> canvas.items == Configured(drawn, id, options).value)
      && (r.Err? && !options.Raises() ==> r.error == ValueError)
    ensures r.Ok? ==> fresh(r.value) && r.value.kind == Polygonal(Rectangle)
  {
    var cs := Corners(x, y, a, b);
    FlattenPointArgs(cs);
    RectangleOfCorners(x, y, a, b, atan2);
    r := NewQuadrilateral(canvas, counter, Rectangle, PointArgs(cs), options, atan2);
  }

  /** The reading of `atan2(dx, dy)` about the centre that puts the corners
      of an axis-parallel square, `h` from the centre, in the order of the
      true `atan2`: lower-left, upper-left, upper-right, lower-right. */
  predicate CornerAngles(atan2: (real, real) -> real, h: real) {
    atan2(-h, -h) < atan2(-h, h) < atan2(h, h) < atan2(h, -h)
  }

  /** Sorting four items whose keys rank them first, fourth, third, second. */
  lemma SortFour<T>(a: T, b: T, c: T, d: T, key: T -> real)
    requires key(a) < key(d) < key(c) < key(b)
    ensures SortBy([a, b, c, d], key) == [a, d, c, b]
  {
    var s := [a, b, c, d];
    assert s[..3][..2][..1] == [a] && s[..3][..2] == [a, b] && s[..3] == [a, b, c];
    assert SortBy([a], key) == [a];
    assert SortBy([a, b], key) == [a, b];
    assert InsertBy([a], c, key) == [a, c];
    assert SortBy([a, b, c], key) == [a, c, b];
    assert InsertBy([a], d, key) == [a, d];
    assert InsertBy([a, c], d, key) == [a, d, c];
  }

  /** With the corner angles of the true `atan2`, the corners of
      `from_side` are drawn in the order first, fourth, third, second. */
  lemma SquareSorted(x: real, y: real, side: real, atan2: (real, real) -> real)
    requires side > 0.0 && CornerAngles(atan2, side / 2.0)
    ensures var cs := Corners(x, y, side, side);
      SortForPlotting(FlatPoints(cs), atan2) == Ok([cs[0], cs[3], cs[2], cs[1]])
  {
    var h := side / 2.0;
    var cs := Corners(x, y, side, side);
    PairsRoundTrip(cs);
    CornersCentroid(x, y, side, side);
    CornersDistinct(x, y, side, side);
    DedupOfDistinct(cs);
    CornersSorted(x, y, side, atan2);
  }

  lemma CornersSorted(x: real, y: real, side: real, atan2: (real, real) -> real)
    requires CornerAngles(atan2, side / 2.0)
    ensures var cs := Corners(x, y, side, side);
      SortBy(cs, AngleKey((x + side / 2.0, y + side / 2.0), atan2)) == [cs[0], cs[3], cs[2], cs[1]]
  {
    var h := side / 2.0;
    var cs := Corners(x, y, side, side);
    var key := AngleKey((x + h, y + h), atan2);
    assert key(cs[0]) == atan2(-h, -h) && key(cs[1]) == atan2(h, -h);
    assert key(cs[2]) == atan2(h, h) && key(cs[3]) == atan2(-h, h);
    SortFour(cs[0], cs[1], cs[2], cs[3], key);
    assert cs == [cs[0], cs[1], cs[2], cs[3]];
  }

  /** ... and then every vertex is as far from the centre and every side
      has the given length, so the square test passes. */
  lemma SquareOfCorners(x: real, y: real, side: real, atan2: (real, real) -> real)
    requires side > 0.0 && CornerAngles(atan2, side / 2.0)
    ensures IsSquare(FlatPoints(Corners(x, y, side, side)), atan2) == Ok(true)
  {
    var h := side / 2.0;
    var cs := Corners(x, y, side, side);
    var ps := [cs[0], cs[3], cs[2], cs[1]];
    SquareSorted(x, y, side, atan2);
    CornersCentroid(x, y, side, side);
    SquareRadii(x, y, side);
    SquareSides(x, y, side);
    SquareTest(FlatPoints(cs), atan2, (x + h, y + h), ps, Root(h * h + h * h), Root(side * side));
  }

  lemma SquareRadii(x: real, y: real, side: real)
    ensures var h := side / 2.0;
      var cs := Corners(x, y, side, side);
      forall i :: 0 <= i < 4 ==> Distance((x + h, y + h), [cs[0], cs[3], cs[2], cs[1]][i]) == Root(h * h + h * h)
  {
    var h := side / 2.0;
    var cs := Corners(x, y, side, side);
    var ps := [cs[0], cs[3], cs[2], cs[1]];
    forall i | 0 <= i < 4 ensures Distance((x + h, y + h), ps[i]) == Root(h * h + h * h) {
      CornerRadius(x, y, side, side, ps[i]);
    }
  }

  /** The square test passes once the sorted vertices are all at one
      distance from the centroid and every side has one length. */
  lemma SquareTest(xs: seq<real>, atan2: (real, real) -> real, c: Point, ps: seq<Point>, radius: Length, length: Length)
    requires SortForPlotting(xs, atan2) == Ok(ps) && Centroid(xs) == Ok(c) && ps != []
    requires forall i :: 0 <= i < |ps| ==> Distance(c, ps[i]) == radius
    requires forall i :: 0 <= i < |ps| ==> Ring(ps)[i] == length
    ensures IsSquare(xs, atan2) == Ok(true)
  {
    AllEqualTo(Radii(c, ps), radius);
    AllEqualTo(Ring(ps), length);
  }

  lemma SquareSides(x: real, y: real, side: real)
    ensures var cs := Corners(x, y, side, side);
      forall i :: 0 <= i < 4 ==> Ring([cs[0], cs[3], cs[2], cs[1]])[i].square == side * side
  {
    var cs := Corners(x, y, side, side);
    var ps := [cs[0], cs[3], cs[2], cs[1]];
    var r := Ring(ps);
    AxisDistance(ps[0], ps[1], side);
    AxisDistance(ps[1], ps[2], side);
    AxisDistance(ps[2], ps[3], side);
    AxisDistance(ps[3], ps[0], side);
    assert r[3] == Distance(ps[3], ps[0]);
  }

  /** Two points `side` apart along one axis are `side` apart. */
  lemma AxisDistance(p: Point, q: Point, side: real)
    requires || (p.0 == q.0 && (q.1 == p.1 + side || p.1 == q.1 + side))
             || (p.1 == q.1 && (q.0 == p.0 + side || p.0 == q.0 + side))
    ensures Distance(p, q).square == side * side
  {
    assert (-side) * (-side) == side * side;
  }

  /** `Square.from_side`: the square with the given side from the
      upper-left corner `(x, y)`. A zero side gives four equal points, which
      the square test accepts; a positive side is accepted when the angular
      sort orders the corners as the true `atan2` does. */
  method FromSide(canvas: Canvas, counter: IdCounter, side: real, x: real, y: real,
                  options: TagsOption, atan2: (real, real) -> real) returns (r: Result<Shape>)
    modifies canvas, counter
    ensures var cs := Corners(x, y, side, side);
      var id := Id(Square.Name(), old(counter.next));
      var drawn := old(canvas.items) + [Item(FlatPoints(SortForPlotting(FlatPoints(cs), atan2).value), [id])];
      && counter.next == old(counter.next) + 1
      && (options.Raises() ==> r == Err(options.Raised()) && canvas.items == drawn)
      && (!options.Raises() ==> canvas.items == Configured(drawn, id, options).value)
      && (r.Ok? <==> !options.Raises() && IsSquare(FlatPoints(cs), atan2) == Ok(true))
    ensures !options.Raises() && side == 0.0 ==> r.Ok?
    ensures !options.Raises() && side > 0.0 && CornerAngles(atan2, side / 2.0) ==> r.Ok?
    ensures r.Ok? ==> fresh(r.value) && r.value.kind == Polygonal(Square)
  {
    var cs := Corners(x, y, side, side);
    FlattenPointArgs(cs);
    if side == 0.0 {
      PairsRoundTrip(cs);
      assert Dedup(cs[..1]) == [cs[0]];
      assert cs[..2][..1] == cs[..1] && cs[..3][..2] == cs[..2];
      assert Dedup(cs[..2]) == [cs[0]];
      assert Dedup(cs[..3]) == [cs[0]];
      assert Dedup(cs) == [cs[0]];
      OneVertex(FlatPoints(cs), atan2);
    } else if side > 0.0 && CornerAngles(atan2, side / 2.0) {
      SquareOfCorners(x, y, side, atan2);
    }
    r := NewQuadrilateral(canvas, counter, Square, PointArgs(cs), options, atan2);
  }
}
