/** The complex-number arithmetic behind `rotate` and the two reflections
    of `PolygonGraphics`: a point `(x, y)` is the complex number `x + yj`. */
module ComplexPlane {
  import opened Outcomes
  import opened Coordinates

  datatype Complex = Complex(re: real, im: real)

  function Of(p: Point): Complex { Complex(p.0, p.1) }

  function Add(a: Complex, b: Complex): Complex {
    Complex(a.re + b.re, a.im + b.im)
  }

  function Sub(a: Complex, b: Complex): Complex {
    Complex(a.re - b.re, a.im - b.im)
  }

  function Mul(a: Complex, b: Complex): Complex {
    Complex(a.re * b.re - a.im * b.im, a.re * b.im + a.im * b.re)
  }

  function Conj(a: Complex): Complex {
    Complex(a.re, -a.im)
  }

  /** `|a|²`. */
  function NormSq(a: Complex): real {
    a.re * a.re + a.im * a.im
  }

  /** Python's complex `/`: division by `0j` raises ZeroDivisionError. */
  function Div(a: Complex, b: Complex): (r: Result<Complex>)
    ensures r.Err? <==> b == Complex(0.0, 0.0)
    ensures r.Err? ==> r.error == ZeroDivisionError
    ensures r.Ok? ==> Mul(r.value, b) == a
  {
    if b == Complex(0.0, 0.0) then Err(ZeroDivisionError)
    else
      var n := NormSq(b);
      NormSqPositive(b);
      var q := Complex((a.re * b.re + a.im * b.im) / n, (a.im * b.re - a.re * b.im) / n);
      DivTimes(a, b, n);
      Ok(q)
  }

  lemma NormSqPositive(b: Complex)
    requires b != Complex(0.0, 0.0)
    ensures NormSq(b) > 0.0
  {
    SumOfSquares(b.re, b.im, NormSq(b));
  }

  lemma NormSqNonNegative(b: Complex)
    ensures NormSq(b) >= 0.0
  {
    SumOfSquares(b.re, b.im, NormSq(b));
  }

  /** `s = x² + y²` is non-negative, and positive unless `x = y = 0`. */
  lemma SumOfSquares(x: real, y: real, s: real)
    requires s == x * x + y * y
    ensures s >= 0.0
    ensures x != 0.0 || y != 0.0 ==> s > 0.0
  {
    SquareOf(x, x * x);
    SquareOf(y, y * y);
  }

  lemma SquareOf(x: real, r: real)
    requires r == x * x
    ensures r >= 0.0
    ensures x != 0.0 ==> r > 0.0
  {
    if x < 0.0 {
      PositiveProduct(-x, -x, r);
    } else if x > 0.0 {
      PositiveProduct(x, x, r);
    }
  }

  lemma PositiveProduct(a: real, b: real, r: real)
    requires a > 0.0 && b > 0.0 && r == a * b
    ensures r > 0.0
  {
  }

  lemma DivTimes(a: Complex, b: Complex, n: real)
    requires n == NormSq(b) && n > 0.0
    ensures Mul(Complex((a.re * b.re + a.im * b.im) / n, (a.im * b.re - a.re * b.im) / n), b) == a
  {
    var u, v := a.re * b.re + a.im * b.im, a.im * b.re - a.re * b.im;
    assert u * b.re - v * b.im == a.re * n;
    assert u * b.im + v * b.re == a.im * n;
    assert (u / n) * b.re - (v / n) * b.im == (u * b.re - v * b.im) / n;
    assert (u / n) * b.im + (v / n) * b.re == (u * b.im + v * b.re) / n;
  }

  // ---------------------------------------------------------------------
  // Rotation: `u * (p - c) + c` for the unit number `u = exp(1j * angle)`.

  function RotatePoint(p: Point, u: Complex, c: Point): (r: Point)
    ensures NormSq(u) == 1.0 ==> NormSq(Sub(Of(r), Of(c))) == NormSq(Sub(Of(p), Of(c)))
  {
    var w := Add(Mul(u, Sub(Of(p), Of(c))), Of(c));
    MulNorm(u, Sub(Of(p), Of(c)));
    assert Sub(w, Of(c)) == Mul(u, Sub(Of(p), Of(c)));
    (w.re, w.im)
  }

  /** `|u·z|² = |u|²·|z|²`. */
  lemma MulNorm(u: Complex, z: Complex)
    ensures NormSq(Mul(u, z)) == NormSq(u) * NormSq(z)
  {
  }

  /** The rotation of every vertex about `c`. */
  function RotatePoints(ps: seq<Point>, u: Complex, c: Point): (r: seq<Point>)
    ensures |r| == |ps|
    ensures forall i :: 0 <= i < |ps| ==> r[i] == RotatePoint(ps[i], u, c)
  {
    if ps == [] then [] else [RotatePoint(ps[0], u, c)] + RotatePoints(ps[1..], u, c)
  }

  /** Rotating by `u` and then by `v` is rotating by `v·u`. */
  lemma RotateCompose(p: Point, u: Complex, v: Complex, c: Point)
    ensures RotatePoint(RotatePoint(p, u, c), v, c) == RotatePoint(p, Mul(v, u), c)
  {
    var z := Sub(Of(p), Of(c));
    assert Sub(Of(RotatePoint(p, u, c)), Of(c)) == Mul(u, z);
    MulAssoc(v, u, z);
  }

  lemma MulAssoc(a: Complex, b: Complex, z: Complex)
    ensures Mul(a, Mul(b, z)) == Mul(Mul(a, b), z)
  {
  }

  /** A unit number times its conjugate is one. */
  lemma ConjInverse(u: Complex)
    requires NormSq(u) == 1.0
    ensures Mul(Conj(u), u) == Complex(1.0, 0.0)
  {
  }

  lemma RotateByOne(p: Point, c: Point)
    ensures RotatePoint(p, Complex(1.0, 0.0), c) == p
  {
  }

  /** Rotating back by the conjugate angle restores every point. */
  lemma RotateRoundTrip(p: Point, u: Complex, c: Point)
    requires NormSq(u) == 1.0
    ensures RotatePoint(RotatePoint(p, u, c), Conj(u), c) == p
  {
    RotateCompose(p, u, Conj(u), c);
    ConjInverse(u);
    RotateByOne(p, c);
  }

  lemma {:induction false} RotatePointsRoundTrip(ps: seq<Point>, u: Complex, c: Point)
    requires NormSq(u) == 1.0
    ensures RotatePoints(RotatePoints(ps, u, c), Conj(u), c) == ps
  {
    forall i | 0 <= i < |ps| ensures RotatePoints(RotatePoints(ps, u, c), Conj(u), c)[i] == ps[i] {
      RotateRoundTrip(ps[i], u, c);
    }
  }

  lemma {:induction false} RotatePointsCompose(ps: seq<Point>, u: Complex, v: Complex, c: Point)
    ensures RotatePoints(RotatePoints(ps, u, c), v, c) == RotatePoints(ps, Mul(v, u), c)
  {
    forall i | 0 <= i < |ps| ensures RotatePoints(RotatePoints(ps, u, c), v, c)[i] == RotatePoints(ps, Mul(v, u), c)[i] {
      RotateCompose(ps[i], u, v, c);
    }
  }

  /** The centre of rotation stays where it is. */
  lemma RotateFixesCenter(u: Complex, c: Point)
    ensures RotatePoint(c, u, c) == c
  {
  }

  // ---------------------------------------------------------------------
  // Point reflection: rotation by 180 degrees, `u = -1`.

  const MinusOne := Complex(-1.0, 0.0)

  /** Rotating by `-1` about `c` is the point reflection `p ↦ 2c - p`. */
  lemma PointReflection(p: Point, c: Point)
    ensures RotatePoint(p, MinusOne, c) == (2.0 * c.0 - p.0, 2.0 * c.1 - p.1)
  {
  }

  /** Reflecting twice across the same point is the identity. */
  lemma PointReflectionInvolution(p: Point, c: Point)
    ensures RotatePoint(RotatePoint(p, MinusOne, c), MinusOne, c) == p
  {
    PointReflection(p, c);
    PointReflection(RotatePoint(p, MinusOne, c), c);
  }

  // ---------------------------------------------------------------------
  // Line reflection: `conj(p - p1) * (p2 - p1) / conj(p2 - p1) + p1`.

  /** `_reflect_point_across_line_complex(x, y, x1, y1, x2, y2)`: fails with
      ZeroDivisionError exactly when the two points of the line coincide. */
  function ReflectAcrossLine(p: Point, p1: Point, p2: Point): (r: Result<Point>)
    ensures r.Err? <==> p1 == p2
    ensures r.Err? ==> r.error == ZeroDivisionError
  {
    var d := Sub(Of(p2), Of(p1));
    var w := Div(Mul(Conj(Sub(Of(p), Of(p1))), d), Conj(d));
    LineDirection(p1, p2);
    if w.Err? then Err(w.error) else Ok((w.value.re + p1.0, w.value.im + p1.1))
  }

  lemma LineDirection(p1: Point, p2: Point)
    ensures Conj(Sub(Of(p2), Of(p1))) == Complex(0.0, 0.0) <==> p1 == p2
  {
  }

  /** Division is unique: the only `w` with `w·b = a` is `a / b`. */
  lemma DivUnique(w: Complex, e: Complex, b: Complex)
    requires b != Complex(0.0, 0.0)
    requires Mul(w, b) == Mul(e, b)
    ensures w == e
  {
    NormSqPositive(b);
    var n := NormSq(b);
    var f := Sub(w, e);
    assert Mul(f, b) == Complex(0.0, 0.0);
    assert Mul(Mul(f, b), Conj(b)) == Complex(f.re * n, f.im * n);
    ZeroProduct(f.re, n, f.re * n);
    ZeroProduct(f.im, n, f.im * n);
  }

  lemma ZeroProduct(x: real, n: real, r: real)
    requires n > 0.0 && r == x * n && r == 0.0
    ensures x == 0.0
  {
    if x > 0.0 {
      PositiveProduct(x, n, r);
    } else if x < 0.0 {
      PositiveProduct(-x, n, -r);
    }
  }

  /** `(a·d) / c = a·(d / c)`. */
  lemma DivFactor(a: Complex, d: Complex, c: Complex)
    requires c != Complex(0.0, 0.0)
    ensures Div(Mul(a, d), c) == Ok(Mul(a, Div(d, c).value))
  {
    var w := Div(d, c).value;
    MulAssoc(a, w, c);
    DivUnique(Div(Mul(a, d), c).value, Mul(a, w), c);
  }

  /** The unit number `w = d / conj(d)` that turns `conj(p - p1)` into the image. */
  function Turn(p1: Point, p2: Point): (w: Complex)
    requires p1 != p2
    ensures Mul(w, Conj(Sub(Of(p2), Of(p1)))) == Sub(Of(p2), Of(p1))
    ensures NormSq(w) == 1.0
  {
    var d := Sub(Of(p2), Of(p1));
    LineDirection(p1, p2);
    var w := Div(d, Conj(d)).value;
    TurnIsUnit(w, d);
    w
  }

  /** `w·conj(d) = d` with `d ≠ 0` makes `|w| = 1`. */
  lemma TurnIsUnit(w: Complex, d: Complex)
    requires d != Complex(0.0, 0.0) && Mul(w, Conj(d)) == d
    ensures NormSq(w) == 1.0
  {
    MulNorm(w, Conj(d));
    NormSqPositive(d);
    assert NormSq(Conj(d)) == NormSq(d);
    UnitFactor(NormSq(w), NormSq(d), NormSq(w) * NormSq(d));
  }

  lemma UnitFactor(x: real, n: real, r: real)
    requires n > 0.0 && r == x * n && r == n
    ensures x == 1.0
  {
    ZeroProduct(x - 1.0, n, (x - 1.0) * n);
  }

  /** `conj(p - p1)·w + p1`: the reflection across the line through `p1`
      whose direction `d` satisfies `w·conj(d) = d`. */
  function TurnImage(p: Point, p1: Point, w: Complex): Point {
    var c := Add(Mul(Conj(Sub(Of(p), Of(p1))), w), Of(p1));
    (c.re, c.im)
  }

  lemma ReflectByTurn(p: Point, p1: Point, p2: Point)
    requires p1 != p2
    ensures ReflectAcrossLine(p, p1, p2) == Ok(TurnImage(p, p1, Turn(p1, p2)))
  {
    var d := Sub(Of(p2), Of(p1));
    DivFactor(Conj(Sub(Of(p), Of(p1))), d, Conj(d));
  }

  /** `conj(conj(q)·w)·w = q·|w|²`. */
  lemma TurnTwice(q: Complex, w: Complex)
    ensures Mul(Conj(Mul(Conj(q), w)), w) == Complex(q.re * NormSq(w), q.im * NormSq(w))
  {
  }

  lemma TurnImageInvolution(p: Point, p1: Point, w: Complex)
    requires NormSq(w) == 1.0
    ensures TurnImage(TurnImage(p, p1, w), p1, w) == p
  {
    var q := Sub(Of(p), Of(p1));
    assert Sub(Of(TurnImage(p, p1, w)), Of(p1)) == Mul(Conj(q), w);
    TurnTwice(q, w);
  }

  /** Reflecting twice across the same line is the identity. */
  lemma ReflectAcrossLineInvolution(p: Point, p1: Point, p2: Point)
    requires p1 != p2
    ensures ReflectAcrossLine(ReflectAcrossLine(p, p1, p2).value, p1, p2) == Ok(p)
  {
    var w := Turn(p1, p2);
    ReflectByTurn(p, p1, p2);
    ReflectByTurn(TurnImage(p, p1, w), p1, p2);
    TurnImageInvolution(p, p1, w);
  }

  lemma TurnImageFixesBase(p1: Point, w: Complex)
    ensures TurnImage(p1, p1, w) == p1
  {
    var z := Conj(Sub(Of(p1), Of(p1)));
    SelfDifference(Of(p1));
    ZeroTimes(z, w);
  }

  lemma SelfDifference(a: Complex)
    ensures Conj(Sub(a, a)) == Complex(0.0, 0.0)
  {
  }

  lemma TurnImageFixesOther(p1: Point, p2: Point, w: Complex)
    requires Mul(w, Conj(Sub(Of(p2), Of(p1)))) == Sub(Of(p2), Of(p1))
    ensures TurnImage(p2, p1, w) == p2
  {
    var d := Sub(Of(p2), Of(p1));
    MulCommutes(Conj(d), w);
    assert Add(Mul(Conj(d), w), Of(p1)) == Add(d, Of(p1));
  }

  lemma ZeroTimes(z: Complex, w: Complex)
    requires z == Complex(0.0, 0.0)
    ensures Mul(z, w) == Complex(0.0, 0.0)
  {
  }

  lemma MulCommutes(a: Complex, b: Complex)
    ensures Mul(a, b) == Mul(b, a)
  {
  }

  /** Both points that define the line stay where they are. */
  lemma ReflectAcrossLineFixes(p1: Point, p2: Point)
    requires p1 != p2
    ensures ReflectAcrossLine(p1, p1, p2) == Ok(p1)
    ensures ReflectAcrossLine(p2, p1, p2) == Ok(p2)
  {
    ReflectByTurn(p1, p1, p2);
    ReflectByTurn(p2, p1, p2);
    TurnImageFixesBase(p1, Turn(p1, p2));
    TurnImageFixesOther(p1, p2, Turn(p1, p2));
  }
}
