/** The coordinate helpers of `PolygonGraphics`: flattening of nested
    coordinate arguments, the vertex centroid, the angular vertex sort,
    side lengths and the tolerance test `_all_equal` (exact here). */
module Coordinates {
  import opened Outcomes
  import opened Ordering

  /** A point of the plane, as a Python `(x, y)` tuple. */
  type Point = (real, real)

  /** One argument as `_flatten_xycoords` sees it. */
  datatype Coord =
    | Num(value: real)           // an int or float (bool included)
    | Chars                      // a str, bytes or bytearray
    | Nested(items: seq<Coord>)  // any other iterable: tuple, list, generator, ...
    | Opaque                     // neither a number nor iterable: None, complex, ...

  /** `_flatten_xycoords`: the numeric leaves left to right, at any nesting
      depth; a string-like or other non-number leaf raises TypeError. */
  function Flatten(cs: seq<Coord>): Result<seq<real>>
    decreases cs
  {
    if cs == [] then Ok([]) else Chain(FlattenOne(cs[0]), Flatten(cs[1..]))
  }

  /** The leaves of one argument. */
  function FlattenOne(c: Coord): Result<seq<real>>
    decreases c
  {
    match c
    case Num(x) => Ok([x])
    case Nested(items) => Flatten(items)
    case _ => Err(TypeError)
  }

  /** The first failure, or both runs of coordinates one after the other. */
  function Chain(a: Result<seq<real>>, b: Result<seq<real>>): (r: Result<seq<real>>)
    ensures r.Ok? <==> a.Ok? && b.Ok?
  {
    if a.Err? then a else if b.Err? then b else Ok(a.value + b.value)
  }

  /** Every leaf, at every depth, is a number. */
  predicate AllNumeric(cs: seq<Coord>) {
    cs == [] ||
    (&& (match cs[0]
          case Num(_) => true
          case Nested(items) => AllNumeric(items)
          case _ => false)
     && AllNumeric(cs[1..]))
  }

  /** A flat argument list `x1, y1, x2, y2, ...`. */
  function Nums(xs: seq<real>): (cs: seq<Coord>)
    ensures |cs| == |xs| && forall i :: 0 <= i < |xs| ==> cs[i] == Num(xs[i])
  {
    if xs == [] then [] else [Num(xs[0])] + Nums(xs[1..])
  }

  /** A nested argument list `(x1, y1), (x2, y2), ...`. */
  function PointArgs(ps: seq<Point>): seq<Coord> {
    if ps == [] then [] else [Nested([Num(ps[0].0), Num(ps[0].1)])] + PointArgs(ps[1..])
  }

  /** The coordinates of the points, `x1, y1, x2, y2, ...`. */
  function FlatPoints(ps: seq<Point>): (xs: seq<real>)
    ensures |xs| == 2 * |ps| && |xs| % 2 == 0
    ensures forall i :: 0 <= i < |ps| ==> xs[2 * i] == ps[i].0 && xs[2 * i + 1] == ps[i].1
  {
    if ps == [] then [] else [ps[0].0, ps[0].1] + FlatPoints(ps[1..])
  }

  /** `itertools.batched(xs, 2)` unpacked into `(x, y)` pairs. */
  function Pairs(xs: seq<real>): (ps: seq<Point>)
    requires |xs| % 2 == 0
    ensures |ps| == |xs| / 2
    ensures forall i :: 0 <= i < |ps| ==> ps[i] == (xs[2 * i], xs[2 * i + 1])
  {
    if xs == [] then [] else [(xs[0], xs[1])] + Pairs(xs[2..])
  }

  /** Flattening fails exactly when some leaf is not a number, and then with TypeError. */
  lemma {:induction false} FlattenFailsOnNonNumbers(cs: seq<Coord>)
    ensures Flatten(cs).Ok? <==> AllNumeric(cs)
    ensures Flatten(cs).Err? ==> Flatten(cs).error == TypeError
    decreases cs
  {
    if cs != [] {
      FlattenFailsOnNonNumbers(cs[1..]);
      match cs[0]
      case Nested(items) => FlattenFailsOnNonNumbers(items);
      case _ =>
    }
  }

  /** An already flat argument list comes back unchanged. */
  lemma {:induction false} FlattenFlat(xs: seq<real>)
    ensures Flatten(Nums(xs)) == Ok(xs)
  {
    if xs != [] {
      FlattenFlat(xs[1..]);
      assert Nums(xs)[1..] == Nums(xs[1..]);
      assert [xs[0]] + xs[1..] == xs;
    }
  }

  /** Flattening distributes over concatenation of argument lists. */
  lemma {:induction false} FlattenConcat(a: seq<Coord>, b: seq<Coord>)
    ensures Flatten(a + b) == Chain(Flatten(a), Flatten(b))
  {
    if a == [] {
      assert a + b == b;
      if Flatten(b).Ok? {
        assert [] + Flatten(b).value == Flatten(b).value;
      }
    } else {
      assert (a + b)[0] == a[0] && (a + b)[1..] == a[1..] + b;
      FlattenConcat(a[1..], b);
      var h, t, u := FlattenOne(a[0]), Flatten(a[1..]), Flatten(b);
      if h.Ok? && t.Ok? && u.Ok? {
        assert h.value + (t.value + u.value) == (h.value + t.value) + u.value;
      }
    }
  }

  /** Wrapping the arguments in one more tuple does not change the flattening,
      so `f(*vertices)` forwarding `vertices` to a flattening helper is harmless. */
  lemma FlattenWrapped(cs: seq<Coord>)
    ensures Flatten([Nested(cs)]) == Flatten(cs)
  {
    var l := [Nested(cs)];
    assert l[1..] == [];
    if Flatten(cs).Ok? {
      assert Flatten(cs).value + [] == Flatten(cs).value;
    }
  }

  /** The nested `(x, y)` form and the flat `x, y` form flatten alike. */
  lemma {:induction false} FlattenPointArgs(ps: seq<Point>)
    ensures Flatten(PointArgs(ps)) == Ok(FlatPoints(ps))
    ensures Flatten(PointArgs(ps)) == Flatten(Nums(FlatPoints(ps)))
  {
    FlattenFlat(FlatPoints(ps));
    if ps != [] {
      FlattenPointArgs(ps[1..]);
      var pair := [Num(ps[0].0), Num(ps[0].1)];
      assert Flatten(pair) == Ok([ps[0].0, ps[0].1]) by {
        assert pair == Nums([ps[0].0, ps[0].1]);
        FlattenFlat([ps[0].0, ps[0].1]);
      }
      assert PointArgs(ps)[1..] == PointArgs(ps[1..]);
      assert FlatPoints(ps) == [ps[0].0, ps[0].1] + FlatPoints(ps[1..]);
    }
  }

  lemma {:induction false} PairsRoundTrip(ps: seq<Point>)
    ensures Pairs(FlatPoints(ps)) == ps
  {
    if ps != [] {
      PairsRoundTrip(ps[1..]);
      assert FlatPoints(ps)[2..] == FlatPoints(ps[1..]);
    }
  }

  lemma {:induction false} FlatPointsRoundTrip(xs: seq<real>)
    requires |xs| % 2 == 0
    ensures FlatPoints(Pairs(xs)) == xs
  {
    if xs != [] {
      FlatPointsRoundTrip(xs[2..]);
      assert xs == [xs[0], xs[1]] + xs[2..];
    }
  }

  // ---------------------------------------------------------------------
  // Centroid.

  /** `xs[::2]`, the x coordinates. */
  function Evens(xs: seq<real>): (r: seq<real>)
    ensures |r| == (|xs| + 1) / 2
    ensures forall i :: 0 <= i < |r| ==> r[i] == xs[2 * i]
  {
    if xs == [] then [] else [xs[0]] + Odds(xs[1..])
  }

  /** `xs[1::2]`, the y coordinates. */
  function Odds(xs: seq<real>): (r: seq<real>)
    ensures |r| == |xs| / 2
    ensures forall i :: 0 <= i < |r| ==> r[i] == xs[2 * i + 1]
  {
    if xs == [] then [] else Evens(xs[1..])
  }

  function Sum(s: seq<real>): real {
    if s == [] then 0.0 else s[0] + Sum(s[1..])
  }

  /** `statistics.mean`. */
  function Mean(s: seq<real>): real
    requires |s| > 0
  {
    Sum(s) / |s| as real
  }

  /** `vertices_centroid` on the flattened coordinates: the mean of the x
      values and the mean of the y values; a mean of no values raises. */
  function Centroid(xs: seq<real>): (r: Result<Point>)
    ensures r.Ok? <==> |xs| >= 2
    ensures r.Err? ==> r.error == StatisticsError
  {
    if |xs| < 2 then Err(StatisticsError) else Ok((Mean(Evens(xs)), Mean(Odds(xs))))
  }

  function Shift(s: seq<real>, d: real): (r: seq<real>)
    ensures |r| == |s| && forall i :: 0 <= i < |s| ==> r[i] == s[i] + d
  {
    if s == [] then [] else [s[0] + d] + Shift(s[1..], d)
  }

  /** Every point `(x, y)` of a flat coordinate list moved to `(x + dx, y + dy)`. */
  function Translate(xs: seq<real>, dx: real, dy: real): (r: seq<real>)
    ensures |r| == |xs|
  {
    if xs == [] then [] else [xs[0] + dx] + Translate(xs[1..], dy, dx)
  }

  lemma {:induction false} TranslateSplits(xs: seq<real>, dx: real, dy: real)
    ensures Evens(Translate(xs, dx, dy)) == Shift(Evens(xs), dx)
    ensures Odds(Translate(xs, dx, dy)) == Shift(Odds(xs), dy)
  {
    if xs != [] {
      TranslateSplits(xs[1..], dy, dx);
    }
  }

  lemma {:induction false} SumShift(s: seq<real>, d: real)
    ensures Sum(Shift(s, d)) == Sum(s) + |s| as real * d
  {
    if s != [] {
      SumShift(s[1..], d);
      assert Shift(s, d)[1..] == Shift(s[1..], d);
    }
  }

  lemma MeanShift(s: seq<real>, d: real)
    requires |s| > 0
    ensures Mean(Shift(s, d)) == Mean(s) + d
  {
    var t := Shift(s, d);
    var n := |s| as real;
    SumShift(s, d);
    assert Mean(t) == Sum(t) / n && Sum(t) == Sum(s) + n * d;
    DivideShifted(Sum(s), d, n);
  }

  lemma DivideShifted(a: real, d: real, n: real)
    requires n > 0.0
    ensures (a + n * d) / n == a / n + d
  {
    assert (a / n + d) * n == a + n * d;
  }

  /** The centroid is translation-equivariant. */
  lemma CentroidTranslates(xs: seq<real>, dx: real, dy: real)
    requires |xs| >= 2
    ensures Centroid(Translate(xs, dx, dy))
         == Ok((Centroid(xs).value.0 + dx, Centroid(xs).value.1 + dy))
  {
    TranslateSplits(xs, dx, dy);
    MeanShift(Evens(xs), dx);
    MeanShift(Odds(xs), dy);
  }

  // ---------------------------------------------------------------------
  // Angular sort.

  /** `atan2(x - cx, y - cy)` for the point `(x, y)` and the centroid `c`;
      `atan2` itself is a parameter. */
  function AngleKey(c: Point, atan2: (real, real) -> real): Point -> real {
    (p: Point) => atan2(p.0 - c.0, p.1 - c.1)
  }

  /** `_sort_vertices_for_proper_plotting` on the flattened coordinates:
      centroid first, then pairs into a dict (first occurrence kept), then a
      stable sort by angle. */
  function SortForPlotting(xs: seq<real>, atan2: (real, real) -> real): Result<seq<Point>> {
    var c :- Centroid(xs);
    if |xs| % 2 != 0 then Err(ValueError)
    else Ok(SortBy(Dedup(Pairs(xs)), AngleKey(c, atan2)))
  }

  lemma SortForPlottingOk(xs: seq<real>, atan2: (real, real) -> real)
    ensures SortForPlotting(xs, atan2).Ok? <==> |xs| >= 2 && |xs| % 2 == 0
    ensures SortForPlotting(xs, atan2).Ok? ==>
      SortForPlotting(xs, atan2).value == SortBy(Dedup(Pairs(xs)), AngleKey(Centroid(xs).value, atan2))
  {
  }

  /** The sort fails only on fewer than two or an odd number of coordinates;
      otherwise it returns each distinct input point exactly once, ordered by
      angle about the centroid, points of equal angle in order of first occurrence. */
  lemma SortForPlottingSpec(xs: seq<real>, atan2: (real, real) -> real)
    ensures SortForPlotting(xs, atan2).Ok? <==> |xs| >= 2 && |xs| % 2 == 0
    ensures |xs| < 2 ==> SortForPlotting(xs, atan2) == Err(StatisticsError)
    ensures |xs| >= 2 && |xs| % 2 != 0 ==> SortForPlotting(xs, atan2) == Err(ValueError)
    ensures SortForPlotting(xs, atan2).Ok? ==>
      StableDistinctSort(SortForPlotting(xs, atan2).value, Pairs(xs), AngleKey(Centroid(xs).value, atan2))
  {
    SortForPlottingOk(xs, atan2);
    if |xs| >= 2 && |xs| % 2 == 0 {
      SortedDedupSpec(Pairs(xs), AngleKey(Centroid(xs).value, atan2));
    }
  }

  /** The drawn polygon has as many vertices as there are distinct points. */
  lemma SortKeepsDistinctCount(xs: seq<real>, atan2: (real, real) -> real)
    requires |xs| >= 2 && |xs| % 2 == 0
    ensures |SortForPlotting(xs, atan2).value| == |Dedup(Pairs(xs))|
  {
    SortBySpec(Dedup(Pairs(xs)), AngleKey(Centroid(xs).value, atan2));
    assert |multiset(SortForPlotting(xs, atan2).value)| == |multiset(Dedup(Pairs(xs)))|;
  }

  // ---------------------------------------------------------------------
  // Lengths and `_all_equal`.

  /** The length `sqrt(square)`, kept symbolic: square roots are injective on
      non-negative reals, so two lengths are equal exactly when their squares are. */
  datatype Length = Root(square: real)

  /** `math.dist(p, q)`. */
  function Distance(p: Point, q: Point): (d: Length)
    ensures d.square >= 0.0
  {
    Root((p.0 - q.0) * (p.0 - q.0) + (p.1 - q.1) * (p.1 - q.1))
  }

  /** The sides of the closed polygon through `ps`, the last one back to the first. */
  function Ring(ps: seq<Point>): (r: seq<Length>)
    ensures |r| == |ps|
    ensures forall i :: 0 <= i < |ps| - 1 ==> r[i] == Distance(ps[i], ps[i + 1])
    ensures |ps| > 0 ==> r[|ps| - 1] == Distance(ps[|ps| - 1], ps[0])
  {
    seq(|ps|, i requires 0 <= i < |ps| => Distance(ps[i], if i + 1 < |ps| then ps[i + 1] else ps[0]))
  }

  /** `side_lengths` on the flattened coordinates. */
  function SideLengths(xs: seq<real>, atan2: (real, real) -> real): Result<seq<Length>> {
    var ps :- SortForPlotting(xs, atan2);
    Ok(Ring(ps))
  }

  /** One length per distinct vertex, each the distance from one vertex to
      the next in plotting order, the last closing back to the first. */
  lemma SideLengthsSpec(xs: seq<real>, atan2: (real, real) -> real)
    ensures SideLengths(xs, atan2).Ok? <==> |xs| >= 2 && |xs| % 2 == 0
    ensures SideLengths(xs, atan2).Ok? ==>
      && SideLengths(xs, atan2).value == Ring(SortForPlotting(xs, atan2).value)
      && 0 < |SideLengths(xs, atan2).value| == |Dedup(Pairs(xs))|
  {
    SortForPlottingSpec(xs, atan2);
    if |xs| >= 2 && |xs| % 2 == 0 {
      SortKeepsDistinctCount(xs, atan2);
      var ps := Pairs(xs);
      assert ps[0] in ps;
      DedupSpec(ps);
      assert ps[0] in Dedup(ps);
    }
  }

  /** `all(isclose(first, n) for n in rest)`, with `isclose` as equality. */
  function AllLike<T(==)>(first: T, rest: seq<T>): (b: bool)
    ensures b <==> forall i :: 0 <= i < |rest| ==> rest[i] == first
  {
    rest == [] || (rest[0] == first && AllLike(first, rest[1..]))
  }

  /** `_all_equal(*numbers)`: `numbers[0]` is read only inside the
      generator, which never runs on no arguments, so no arguments (and a
      single one) are all equal. */
  function AllEqual<T(==)>(ns: seq<T>): (b: bool)
    ensures ns == [] ==> b
    ensures |ns| == 1 ==> b
  {
    ns == [] || AllLike(ns[0], ns[1..])
  }

  /** `_all_equal` is true exactly when any two arguments are equal. */
  lemma AllEqualSpec<T>(ns: seq<T>)
    ensures AllEqual(ns) <==> forall i, j :: 0 <= i < |ns| && 0 <= j < |ns| ==> ns[i] == ns[j]
  {
    if ns != [] && AllEqual(ns) {
      forall i | 0 < i < |ns| ensures ns[i] == ns[0] {
        assert ns[i] == ns[1..][i - 1];
      }
    }
  }

  /** Arguments that all equal one value are all equal. */
  lemma AllEqualTo<T>(ns: seq<T>, v: T)
    requires forall i :: 0 <= i < |ns| ==> ns[i] == v
    ensures AllEqual(ns)
  {
    AllEqualSpec(ns);
  }
}
