/** `ConcaveCircularHypotenuse`: a right angle with legs of length `side`
    along the axes from the origin, closed by a circular arc of radius
    `side * sqrt(k)` bulging towards the right angle. */
module Custom {
  import opened Outcomes
  import opened Coordinates
  import opened ComplexPlane
  import opened Arcs
  import opened Tags
  import opened Identifiers
  import opened Surface
  import opened Polygon

  /** `math.sqrt`: a negative argument raises ValueError. */
  function SqrtOf(lib: Library, x: real): Result<real> {
    if x < 0.0 then Err(ValueError) else Ok(lib.sqrt(x))
  }

  /** `math.acos`: an argument outside `[-1, 1]` raises ValueError. */
  function AcosOf(lib: Library, x: real): Result<real> {
    if x < -1.0 || 1.0 < x then Err(ValueError) else Ok(lib.acos(x))
  }

  /** The laws of the exact `acos` used below: it is not negative, it
      decreases, and it maps `sqrt(1/2)` to a quarter of a right angle's
      double, `pi / 4`. */
  ghost predicate AcosLaws(lib: Library) {
    && (forall x :: -1.0 <= x <= 1.0 ==> 0.0 <= lib.acos(x))
    && (forall x, y {:trigger lib.acos(x), lib.acos(y)} :: -1.0 <= x <= y <= 1.0 ==> lib.acos(y) <= lib.acos(x))
    && lib.acos(lib.sqrt(0.5)) == Pi / 4.0
  }

  /** `2 * r ** 2 - side ** 2`. */
  function Radicand(side: real, r: real): real {
    2.0 * r * r - side * side
  }

  /** `cx = cy`, the centre of the arc on the diagonal. */
  function ArcCenter(lib: Library, side: real, r: real): real {
    0.5 * (side + lib.sqrt(Radicand(side, r)))
  }

  /** `delta`: how far, in degrees, the arc stops short of the half turn
      at each end. */
  function Sweep(lib: Library, side: real, r: real): real
    requires r != 0.0
  {
    Degrees(lib.acos(ArcCenter(lib, side, r) / r))
  }

  /** `_create_graphics`: the origin, the end of the vertical leg, the arc
      from `180 + delta` to `270 - delta` degrees around `(cx, cx)`, and
      the end of the horizontal leg. */
  function Outline(lib: Library, side: real, r: real): (o: Result<seq<Point>>)
    ensures o.Ok? ==> |o.value| >= 3 && o.value[0] == (0.0, 0.0) && o.value[1] == (0.0, side)
                      && o.value[|o.value| - 1] == (side, 0.0)
  {
    var q := SqrtOf(lib, Radicand(side, r));
    if q.Err? then Err(q.error)
    else
      var cx := 0.5 * (side + q.value);
      if r == 0.0 then Err(ZeroDivisionError)
      else
        var d := AcosOf(lib, cx / r);
        if d.Err? then Err(d.error)
        else
          var delta := Degrees(d.value);
          var arc := ArcPoints(lib, r, r, cx, cx, 180.0 + delta, 270.0 - delta, None);
          if arc.Err? then Err(arc.error)
          else Ok([(0.0, 0.0), (0.0, side)] + arc.value + [(side, 0.0)])
  }

  /** The radius `side * sqrt(k)` the constructor stores. */
  function Radius(lib: Library, side: real, k: real): real {
    side * lib.sqrt(k)
  }

  /** `ConcaveCircularHypotenuse(canvas, side, k=1, **options)`: the two
      argument checks come before the id is taken; the outline is computed
      once the id is taken, and a failure there leaves the canvas as it was. */
  method NewHypotenuse(canvas: Canvas, counter: IdCounter, side: real, k: real,
                       options: TagsOption, lib: Library) returns (r: Result<Shape>)
    modifies canvas, counter
    ensures side < 0.0 || k < 1.0 ==> r == Err(ValueError) && unchanged(canvas, counter)
    ensures !(side < 0.0 || k < 1.0) ==>
      var id := Id(ConcaveCircularHypotenuse.Name(), old(counter.next));
      var o := Outline(lib, side, Radius(lib, side, k));
      && counter.next == old(counter.next) + 1
      && (o.Err? ==> r == Err(o.error) && canvas.items == old(canvas.items))
      && (o.Ok? ==>
            var drawn := old(canvas.items) + [Item(FlatPoints(o.value), [id])];
            && (r.Err? <==> options.Raises())
            && (options.Raises() ==> r == Err(options.Raised()) && canvas.items == drawn)
            && (!options.Raises() ==> canvas.items == Configured(drawn, id, options).value))
    ensures r.Ok? ==> && fresh(r.value) && r.value.canvas == canvas
                      && r.value.kind == Hypotenuse(side, Radius(lib, side, k))
                      && r.value.idTag == Id(ConcaveCircularHypotenuse.Name(), old(counter.next))
  {
    if side < 0.0 {
      return Err(ValueError);
    }
    if k < 1.0 {
      return Err(ValueError);
    }
    var radius := Radius(lib, side, k);
    var n := counter.Take();
    var id := Id(ConcaveCircularHypotenuse.Name(), n);
    var o := Outline(lib, side, radius);
    if o.Err? {
      return Err(o.error);
    }
    r := Draw(canvas, id, Hypotenuse(side, radius), FlatPoints(o.value), options);
  }

  /** `_instance_factory`: the arguments a clone is built from, `side` and
      `(r / side) ** 2`. */
  function FactoryArguments(side: real, r: real): (a: Result<(real, real)>)
    ensures a.Err? <==> side == 0.0
  {
    if side == 0.0 then Err(ZeroDivisionError) else Ok((side, (r / side) * (r / side)))
  }

  // ---------------------------------------------------------------------
  // Laws.

  /** A side of zero passes the argument check but always fails in
      `_create_graphics`, dividing by the zero radius. */
  lemma ZeroSideFails(lib: Library, k: real)
    ensures Outline(lib, 0.0, Radius(lib, 0.0, k)) == Err(ZeroDivisionError)
  {
  }

  /** The factory recovers the curvature parameter: a clone is built with
      the same `side` and `k`. */
  lemma FactoryRoundTrip(lib: Library, side: real, k: real)
    requires Exact(lib) && side > 0.0 && k >= 1.0
    ensures FactoryArguments(side, Radius(lib, side, k)) == Ok((side, k))
  {
    SqrtLaw(lib, k);
    RatioSquared(side, lib.sqrt(k), Radius(lib, side, k), k);
    FactoryOfRatio(side, Radius(lib, side, k), k);
  }

  lemma RatioSquared(side: real, t: real, r: real, k: real)
    requires side != 0.0 && r == side * t && t * t == k
    ensures (r / side) * (r / side) == k
  {
    var u := r / side;
    assert u == t;
  }

  lemma FactoryOfRatio(side: real, r: real, k: real)
    requires side != 0.0 && (r / side) * (r / side) == k
    ensures FactoryArguments(side, r) == Ok((side, k))
  {
  }

  lemma SqrtLaw(lib: Library, x: real)
    requires Exact(lib) && x >= 0.0
    ensures lib.sqrt(x) >= 0.0 && lib.sqrt(x) * lib.sqrt(x) == x
  {
  }

  lemma SquareBelow(x: real, y: real)
    requires 0.0 <= x && 0.0 <= y && x * x <= y * y
    ensures x <= y
  {
    if y < x {
      PositiveProduct(x - y, x + y, (x - y) * (x + y));
      assert false;
    }
  }

  /** The radicand of a positive side and `k >= 1`, in terms of
      `t = sqrt(k)`, is at least `side ** 2`. */
  lemma RadicandBound(side: real, t: real, k: real, r: real)
    requires side > 0.0 && t >= 0.0 && t * t == k && k >= 1.0 && r == side * t
    ensures r * r == side * side * k
    ensures Radicand(side, r) >= side * side
    ensures r > 0.0
  {
    assert r * r == (side * side) * (t * t);
    assert side * side * (2.0 * k - 1.0) - side * side * 1.0 == (side * side) * (2.0 * k - 2.0);
    NonNegativeProduct(side * side, 2.0 * k - 2.0, (side * side) * (2.0 * k - 2.0));
    assert 2.0 * r * r - side * side == side * side * (2.0 * k - 1.0);
    assert t != 0.0;
    PositiveProduct(side, t, r);
  }

  /** `cx <= r`, with `q = sqrt(2 r^2 - side^2)`: the argument of `acos` is
      at most one. */
  lemma CenterWithinRadius(side: real, k: real, r: real, q: real)
    requires side > 0.0 && k >= 1.0 && r > 0.0 && r * r == side * side * k
    requires q >= 0.0 && q * q == Radicand(side, r)
    ensures 0.5 * (side + q) <= r
  {
    // q <= side * k, because (k - 1)^2 >= 0
    assert q * q == side * side * (2.0 * k - 1.0);
    assert (side * k) * (side * k) - q * q == (side * side) * ((k - 1.0) * (k - 1.0));
    NonNegativeProduct(side * side, (k - 1.0) * (k - 1.0), (side * side) * ((k - 1.0) * (k - 1.0)));
    NonNegativeProduct(side, k, side * k);
    SquareBelow(q, side * k);
    // (side + q)^2 <= (2 r)^2
    assert (side + q) * (side + q) == 2.0 * side * q + 2.0 * side * side * k;
    NonNegativeProduct(2.0 * side, side * k - q, 2.0 * side * (side * k - q));
    assert 2.0 * side * q <= 2.0 * side * (side * k);
    assert (2.0 * r) * (2.0 * r) == 4.0 * side * side * k;
    SquareBelow(side + q, 2.0 * r);
  }

  /** `cx >= r * sqrt(1/2)`: the arc spans at most a right angle. */
  lemma CenterAboveDiagonal(side: real, k: real, r: real, q: real, h: real)
    requires side > 0.0 && r > 0.0 && r * r == side * side * k
    requires q >= 0.0 && q * q == Radicand(side, r)
    requires h >= 0.0 && h * h == 0.5
    ensures 0.0 <= h * r <= 0.5 * (side + q)
  {
    var cx := 0.5 * (side + q);
    assert cx * cx == 0.25 * (2.0 * side * q + 2.0 * side * side * k);
    NonNegativeProduct(side, q, side * q);
    assert (h * r) * (h * r) == (h * h) * (r * r) == 0.5 * (side * side * k);
    NonNegativeProduct(h, r, h * r);
    SquareBelow(h * r, cx);
  }

  lemma QuotientBounds(cx: real, r: real, h: real)
    requires r > 0.0 && 0.0 <= h * r <= cx <= r
    ensures h <= cx / r <= 1.0
  {
    var rho := cx / r;
    assert rho * r == cx;
    if rho < h {
      PositiveProduct(h - rho, r, (h - rho) * r);
      assert false;
    }
    if 1.0 < rho {
      PositiveProduct(rho - 1.0, r, (rho - 1.0) * r);
      assert false;
    }
  }

  /** The point `p` is at distance `r` from `c`. */
  predicate OnCircle(p: Point, c: Point, r: real) {
    (p.0 - c.0) * (p.0 - c.0) + (p.1 - c.1) * (p.1 - c.1) == r * r
  }

  /** Both ends of the legs are at distance `r` from `(cx, cx)`. */
  lemma LegEndsOnCircle(side: real, r: real, q: real, cx: real)
    requires q * q == Radicand(side, r) && cx == 0.5 * (side + q)
    ensures OnCircle((0.0, side), (cx, cx), r) && OnCircle((side, 0.0), (cx, cx), r)
  {
    assert cx * cx + (side - cx) * (side - cx) == 2.0 * cx * cx - 2.0 * side * cx + side * side;
    assert 2.0 * cx * cx == 0.5 * (side * side + 2.0 * side * q + q * q);
  }

  /** What the exact square roots give for a positive side and `k >= 1`:
      a positive radius and a real `q`. */
  lemma Roots(lib: Library, side: real, k: real)
    requires Exact(lib) && side > 0.0 && k >= 1.0
    ensures var r := Radius(lib, side, k);
      var q := lib.sqrt(Radicand(side, r));
      && r > 0.0 && r * r == side * side * k && Radicand(side, r) >= 0.0
      && q >= 0.0 && q * q == Radicand(side, r)
      && ArcCenter(lib, side, r) == 0.5 * (side + q)
  {
    var t := lib.sqrt(k);
    SqrtLaw(lib, k);
    var r := Radius(lib, side, k);
    RadicandBound(side, t, k, r);
    SqrtLaw(lib, Radicand(side, r));
  }

  /** `cx / r`, the argument of `acos`, lies between `sqrt(1/2)` and 1. */
  lemma Geometry(lib: Library, side: real, k: real)
    requires Exact(lib) && side > 0.0 && k >= 1.0
    ensures Radius(lib, side, k) > 0.0 && Radicand(side, Radius(lib, side, k)) >= 0.0
    ensures var r := Radius(lib, side, k);
      lib.sqrt(0.5) <= ArcCenter(lib, side, r) / r <= 1.0
  {
    Roots(lib, side, k);
    var r := Radius(lib, side, k);
    var q := lib.sqrt(Radicand(side, r));
    var h := lib.sqrt(0.5);
    SqrtLaw(lib, 0.5);
    CenterWithinRadius(side, k, r, q);
    CenterAboveDiagonal(side, k, r, q, h);
    QuotientBounds(0.5 * (side + q), r, h);
  }

  /** `delta` lies between 0 and 45 degrees, so the arc runs forwards. */
  lemma SweepBounds(lib: Library, side: real, k: real)
    requires Exact(lib) && AcosLaws(lib) && side > 0.0 && k >= 1.0
    ensures Radius(lib, side, k) > 0.0
    ensures 0.0 <= Sweep(lib, side, Radius(lib, side, k)) <= 45.0
  {
    Geometry(lib, side, k);
    var r := Radius(lib, side, k);
    var rho := ArcCenter(lib, side, r) / r;
    var h := lib.sqrt(0.5);
    assert -1.0 <= h <= rho <= 1.0;
    assert lib.acos(rho) <= lib.acos(h);
    assert 0.0 <= lib.acos(rho) <= Pi / 4.0;
    DegreesBounds(lib.acos(rho));
  }

  lemma DegreesBounds(x: real)
    requires 0.0 <= x <= Pi / 4.0
    ensures 0.0 <= Degrees(x) <= 45.0
  {
  }

  /** With the square root and the arc cosine defined, the outline is the
      arc with the legs' ends around it, or the arc's error. */
  lemma OutlineOfArc(lib: Library, side: real, r: real)
    requires Radicand(side, r) >= 0.0 && r != 0.0
    requires -1.0 <= ArcCenter(lib, side, r) / r <= 1.0
    ensures var cx := ArcCenter(lib, side, r);
      var delta := Sweep(lib, side, r);
      var arc := ArcPoints(lib, r, r, cx, cx, 180.0 + delta, 270.0 - delta, None);
      Outline(lib, side, r) == if arc.Err? then Err(arc.error) else Ok([(0.0, 0.0), (0.0, side)] + arc.value + [(side, 0.0)])
  {
  }

  /** For a positive side and `k >= 1` neither square root nor arc cosine
      fails and the arc runs forwards: the one failure left is a rounded
      point count of zero. */
  lemma OutlineFailsOnlyOnZeroCount(lib: Library, side: real, k: real)
    requires Exact(lib) && AcosLaws(lib) && side > 0.0 && k >= 1.0
    ensures var r := Radius(lib, side, k);
      && r > 0.0
      && (Outline(lib, side, r).Err? <==> DefaultCount(r, 180.0 + Sweep(lib, side, r), 270.0 - Sweep(lib, side, r)) == 0)
      && (Outline(lib, side, r).Err? ==> Outline(lib, side, r).error == ZeroDivisionError)
  {
    Geometry(lib, side, k);
    SweepBounds(lib, side, k);
    OutlineOfArc(lib, side, Radius(lib, side, k));
  }

  /** Under exact arithmetic the circle of radius `r` about `(cx, cx)`
      passes through both ends of the legs. */
  lemma CircleThroughLegEnds(lib: Library, side: real, k: real)
    requires Exact(lib) && side > 0.0 && k >= 1.0
    ensures var r := Radius(lib, side, k);
      var cx := ArcCenter(lib, side, r);
      OnCircle((0.0, side), (cx, cx), r) && OnCircle((side, 0.0), (cx, cx), r)
  {
    Roots(lib, side, k);
    var r := Radius(lib, side, k);
    LegEndsOnCircle(side, r, lib.sqrt(Radicand(side, r)), ArcCenter(lib, side, r));
  }

  /** Every point of an arc with equal semi-axes is on its circle. */
  lemma ArcPointsOnCircle(lib: Library, r: real, cx: real, start: real, stop: real)
    requires Exact(lib) && ArcPoints(lib, r, r, cx, cx, start, stop, None).Ok?
    ensures var ps := ArcPoints(lib, r, r, cx, cx, start, stop, None).value;
      forall j :: 0 <= j < |ps| ==> OnCircle(ps[j], (cx, cx), r)
  {
    var ps := ArcPoints(lib, r, r, cx, cx, start, stop, None).value;
    var n := PointCount(r, start, stop, None);
    forall j | 0 <= j < |ps|
      ensures OnCircle(ps[j], (cx, cx), r)
    {
      ArcPointOnCircle(lib, r, cx, cx, ArcAngle(start, stop, n, j));
    }
  }

  /** Every arc vertex of the outline is on that circle, so the arc joins
      the two legs' ends without a gap. */
  lemma ArcOnCircle(lib: Library, side: real, r: real)
    requires Exact(lib) && r > 0.0 && Radicand(side, r) >= 0.0
    requires -1.0 <= ArcCenter(lib, side, r) / r <= 1.0
    ensures var cx := ArcCenter(lib, side, r);
      var o := Outline(lib, side, r);
      o.Ok? ==> forall i :: 2 <= i < |o.value| - 1 ==> OnCircle(o.value[i], (cx, cx), r)
  {
    var cx := ArcCenter(lib, side, r);
    OutlineOfArc(lib, side, r);
    var o := Outline(lib, side, r);
    if o.Ok? {
      var delta := Sweep(lib, side, r);
      var arc := ArcPoints(lib, r, r, cx, cx, 180.0 + delta, 270.0 - delta, None);
      ArcPointsOnCircle(lib, r, cx, 180.0 + delta, 270.0 - delta);
      forall i | 2 <= i < |o.value| - 1
        ensures OnCircle(o.value[i], (cx, cx), r)
      {
        assert o.value[i] == arc.value[i - 2];
      }
    }
  }

  /** The outline of a positive side and `k >= 1` is the right-angle corner
      followed by vertices all on one circle of radius `r`: the ends of the
      two legs and every arc point between them. */
  lemma HypotenuseIsCircular(lib: Library, side: real, k: real)
    requires Exact(lib) && side > 0.0 && k >= 1.0
    ensures var r := Radius(lib, side, k);
      var cx := ArcCenter(lib, side, r);
      var o := Outline(lib, side, r);
      o.Ok? ==> o.value[0] == (0.0, 0.0) && forall i :: 1 <= i < |o.value| ==> OnCircle(o.value[i], (cx, cx), r)
  {
    Geometry(lib, side, k);
    CircleThroughLegEnds(lib, side, k);
    ArcOnCircle(lib, side, Radius(lib, side, k));
  }
}
