/** The floating-point library the shapes call (`cmath.exp`, `math.cos`,
    `math.sin`, `math.atan2`, `math.sqrt`, `math.acos`), taken as exact
    mathematical functions, and `ellipse_arc_points` built on them. */
module Arcs {
  import opened Outcomes
  import opened Coordinates
  import opened ComplexPlane

  /** `math.pi`. */
  const Pi: real := 3.141592653589793

  /** The library functions, as parameters of the model.
      `cis(t)` is `cmath.exp(1j * t)`; `math.cos(t)` and `math.sin(t)` are its
      real and imaginary parts. */
  datatype Library = Library(
    cis: real -> Complex,
    atan2: (real, real) -> real,
    sqrt: real -> real,
    acos: real -> real)

  /** The laws of the exact functions that the proofs rely on: `cis` lies on
      the unit circle, opposite angles give inverse numbers, half a turn is
      `-1`, and `sqrt` is the non-negative square root. */
  ghost predicate Exact(lib: Library) {
    && (forall t :: NormSq(lib.cis(t)) == 1.0)
    && (forall s, t {:trigger lib.cis(s), lib.cis(t)} :: s + t == 0.0 ==> Mul(lib.cis(s), lib.cis(t)) == Complex(1.0, 0.0))
    && lib.cis(Pi) == MinusOne
    && (forall x :: 0.0 <= x ==> 0.0 <= lib.sqrt(x) && lib.sqrt(x) * lib.sqrt(x) == x)
  }

  /** `math.radians`. */
  function Radians(degrees: real): real {
    degrees * Pi / 180.0
  }

  /** `math.degrees`. */
  function Degrees(radians: real): real {
    radians * 180.0 / Pi
  }

  /** The angle `rotate` passes to `cmath.exp`: converted when given in degrees. */
  function Turning(angle: real, inDegrees: bool): real {
    if inDegrees then Radians(angle) else angle
  }

  lemma RadiansHalfTurn()
    ensures Radians(180.0) == Pi
  {
  }

  lemma RadiansOpposite(angle: real, inDegrees: bool)
    ensures Turning(angle, inDegrees) + Turning(-angle, inDegrees) == 0.0
  {
  }

  /** `int(round(x, 0))`: the nearest integer, ties going to the even one. */
  function RoundHalfEven(x: real): (n: int)
    ensures x - 0.5 <= n as real <= x + 0.5
    ensures (n as real - x == 0.5 || x - n as real == 0.5) ==> n % 2 == 0
  {
    var f := x.Floor;
    var d := x - f as real;
    if d < 0.5 then f else if d > 0.5 then f + 1 else if f % 2 == 0 then f else f + 1
  }

  /** The default number of points: 600 for a full turn of a semi-major axis
      of 1000, proportionally fewer for shorter axes and narrower arcs. */
  /** The number of points when none is given; never negative for a
      non-negative semi-axis and a non-empty span. */
  function DefaultCount(a: real, start: real, stop: real): (n: int)
    ensures a >= 0.0 && start <= stop ==> n >= 0
  {
    var size, turns := 800.0 * a / 1000.0 + 64.0, (stop - start) / 360.0;
    if a >= 0.0 && start <= stop then
      NonNegativeProduct(size, turns, size * turns);
      RoundHalfEven(size * turns)
    else
      RoundHalfEven(size * turns)
  }

  function PointCount(a: real, start: real, stop: real, count: Option<int>): int {
    if count.Some? then count.value else DefaultCount(a, start, stop)
  }

  /** The point of the ellipse with semi-axes `a`, `b` and centre `(cx, cy)`
      at the angle `alpha` given in degrees. */
  function ArcPoint(lib: Library, a: real, b: real, cx: real, cy: real, alpha: real): (p: Point) {
    var u := lib.cis(Radians(alpha));
    (a * u.re + cx, b * u.im + cy)
  }

  /** `ellipse_arc_points`: checks its arguments when called, then yields
      `n` points at the angles `start + i * (stop - start) / n`. */
  function ArcPoints(lib: Library, a: real, b: real, cx: real, cy: real,
                     start: real, stop: real, count: Option<int>): (r: Result<seq<Point>>)
    ensures r.Err? <==> a < 0.0 || b < 0.0 || stop < start || PointCount(a, start, stop, count) == 0
    ensures r.Err? ==> r.error == if a < 0.0 || b < 0.0 || stop < start then ValueError else ZeroDivisionError
    ensures r.Ok? ==> |r.value| == if PointCount(a, start, stop, count) < 0 then 0 else PointCount(a, start, stop, count)
    ensures r.Ok? ==> forall i :: 0 <= i < |r.value| ==>
      r.value[i] == ArcPoint(lib, a, b, cx, cy, ArcAngle(start, stop, PointCount(a, start, stop, count), i))
  {
    if a < 0.0 || b < 0.0 then Err(ValueError)
    else if stop < start then Err(ValueError)
    else
      var n := PointCount(a, start, stop, count);
      if n == 0 then Err(ZeroDivisionError)
      else
        Ok(seq(if n < 0 then 0 else n, i => ArcPoint(lib, a, b, cx, cy, ArcAngle(start, stop, n, i))))
  }

  /** `start + i * (stop - start) / n`. */
  function ArcAngle(start: real, stop: real, n: int, i: int): real
    requires n != 0
  {
    start + (stop - start) / n as real * i as real
  }

  /** The angles run from `start` upwards and never reach `stop`. */
  lemma {:induction false} ArcAnglesBelowStop(start: real, stop: real, n: int, i: int)
    requires start < stop && 0 <= i < n
    ensures start <= ArcAngle(start, stop, n, i) < stop
  {
    var step := (stop - start) / n as real;
    assert step > 0.0;
    ProductBelow(step, i as real, n as real, step * i as real, step * n as real);
    assert step * n as real == stop - start;
    NonNegativeProduct(step, i as real, step * i as real);
  }

  lemma ProductBelow(x: real, i: real, n: real, xi: real, xn: real)
    requires x > 0.0 && i < n && xi == x * i && xn == x * n
    ensures xi < xn
  {
    assert xn - xi == x * (n - i);
    PositiveProduct(x, n - i, x * (n - i));
  }

  lemma NonNegativeProduct(x: real, y: real, r: real)
    requires x >= 0.0 && y >= 0.0 && r == x * y
    ensures r >= 0.0
  {
    if x > 0.0 && y > 0.0 {
      PositiveProduct(x, y, r);
    }
  }

  /** A full ellipse with the default count is drawn with at least 64 points. */
  lemma DefaultCountFullTurn(a: real)
    requires a >= 0.0
    ensures DefaultCount(a, 0.0, 360.0) >= 64
  {
    assert (360.0 - 0.0) / 360.0 == 1.0;
  }

  /** With equal semi-axes every point lies at distance `r` from the centre. */
  lemma ArcPointOnCircle(lib: Library, r: real, cx: real, cy: real, alpha: real)
    requires Exact(lib)
    ensures var p := ArcPoint(lib, r, r, cx, cy, alpha);
      (p.0 - cx) * (p.0 - cx) + (p.1 - cy) * (p.1 - cy) == r * r
  {
    var u := lib.cis(Radians(alpha));
    assert NormSq(u) == 1.0;
    ScaledUnit(r, u.re, u.im);
  }

  lemma ScaledUnit(r: real, c: real, s: real)
    requires c * c + s * s == 1.0
    ensures (r * c) * (r * c) + (r * s) * (r * s) == r * r
  {
    assert (r * c) * (r * c) + (r * s) * (r * s) == (r * r) * (c * c + s * s);
  }
}
