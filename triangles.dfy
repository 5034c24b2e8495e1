/** `Triangle`: exactly three points, drawn in angular order. No shape
    test follows, so repeated points give a polygon of fewer vertices. */
module Triangles {
  import opened Outcomes
  import opened Ordering
  import opened Coordinates
  import opened Tags
  import opened Identifiers
  import opened Surface
  import opened Polygon

  /** `Triangle(canvas, *vertex_points, **options)`: anything but six
      numbers is refused before an id is taken. */
  method NewTriangle(canvas: Canvas, counter: IdCounter, args: seq<Coord>,
                     options: TagsOption, atan2: (real, real) -> real) returns (r: Result<Shape>)
    modifies canvas, counter
    ensures Flatten(args).Err? ==> r == Err(TypeError) && unchanged(canvas, counter)
    ensures Flatten(args).Ok? && |Flatten(args).value| != 6 ==> r == Err(ValueError) && unchanged(canvas, counter)
    ensures Flatten(args).Ok? && |Flatten(args).value| == 6 ==>
      var id := Id(Triangle.Name(), old(counter.next));
      var drawn := old(canvas.items) + [Item(FlatPoints(SortForPlotting(Flatten(args).value, atan2).value), [id])];
      && counter.next == old(counter.next) + 1
      && (r.Err? <==> options.Raises())
      && (options.Raises() ==> r == Err(options.Raised()) && canvas.items == drawn)
      && (!options.Raises() ==> canvas.items == Configured(drawn, id, options).value)
    ensures r.Ok? ==> && fresh(r.value) && r.value.canvas == canvas && r.value.kind == Polygonal(Triangle)
                      && r.value.idTag == Id(Triangle.Name(), old(counter.next))
  {
    FlattenFailsOnNonNumbers(args);
    var xs := Flatten(args);
    if xs.Err? {
      return Err(xs.error);
    }
    if |xs.value| != 6 {
      return Err(ValueError);
    }
    r := DrawSorted(canvas, counter, Triangle, xs.value, options, atan2);
  }

  /** The drawn triangle has one vertex per distinct point: three exactly
      when the points are pairwise different, otherwise fewer. */
  lemma TriangleVertices(xs: seq<real>, atan2: (real, real) -> real)
    requires |xs| == 6
    ensures SortForPlotting(xs, atan2).Ok?
    ensures var n := |SortForPlotting(xs, atan2).value|;
      && 1 <= n <= 3
      && (n == 3 <==> NoDups(Pairs(xs)))
  {
    SortForPlottingOk(xs, atan2);
    SortKeepsDistinctCount(xs, atan2);
    DistinctCount(Pairs(xs));
  }

  /** The flat `x1, y1, ...` form and the `(x, y)` pair form of the same
      three points make the same triangle. */
  lemma TriangleArgumentForms(ps: seq<Point>)
    requires |ps| == 3
    ensures Flatten(PointArgs(ps)) == Flatten(Nums(FlatPoints(ps))) == Ok(FlatPoints(ps))
    ensures |FlatPoints(ps)| == 6 && Pairs(FlatPoints(ps)) == ps
  {
    FlattenPointArgs(ps);
    PairsRoundTrip(ps);
  }
}
