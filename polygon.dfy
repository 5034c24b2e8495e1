/** `PolygonGraphics`: a shape is one polygon item on a canvas, found by the
    shape's id tag. Its methods read and rewrite that item. */
module Polygon {
  import opened Outcomes
  import opened Coordinates
  import opened ComplexPlane
  import opened Arcs
  import opened Tags
  import opened Identifiers
  import opened Surface

  /** The concrete class of a shape, with the constructor arguments its
      `_instance_factory` passes on again. */
  datatype Kind =
    | Polygonal(cls: ShapeClass)                 // quadrilaterals and triangles
    | EllipseShape(a: real, b: real, center: Point)
    | CircleShape(radius: real, center: Point)
    | Hypotenuse(side: real, r: real)            // ConcaveCircularHypotenuse
  {
    function Class(): ShapeClass {
      match this
      case Polygonal(c) => c
      case EllipseShape(_, _, _) => Ellipse
      case CircleShape(_, _) => Circle
      case Hypotenuse(_, _) => ConcaveCircularHypotenuse
    }
  }

  // ---------------------------------------------------------------------
  // What each shape method does to the canvas items.

  /** `config(tags=...)` on the items carrying `id`. */
  function Configured(items: seq<Item>, id: string, opt: TagsOption): (r: Result<seq<Item>>)
    ensures r.Err? <==> opt.Raises()
    ensures r.Err? ==> r.error == opt.Raised()
    ensures opt.Absent? ==> r == Ok(items)
  {
    var m := MergeTags(opt, id);
    if m.Err? then Err(m.error)
    else if m.value.None? then Ok(items)
    else Ok(Retag(items, id, m.value.value))
  }

  /** `dtag(tag)`: the shape's own id tag is never deleted. */
  function GuardedDTag(items: seq<Item>, id: string, tag: string): seq<Item> {
    if tag != id then DTag(items, id, tag) else items
  }

  /** `rotate`: every vertex `p` of the first item with `tag` becomes `u·(p - c) + c`. */
  function Rotated(items: seq<Item>, tag: string, u: Complex, c: Point): (r: seq<Item>)
    requires WholePoints(items)
    ensures WholePoints(r) && |r| == |items|
  {
    var cs := CoordsOf(items, tag);
    var moved := FlatPoints(RotatePoints(Pairs(cs), u, c));
    WholePointsKept(items, tag, moved, [], "", 0.0, 0.0, 0.0, 0.0);
    Surface.SetCoords(items, tag, moved).value
  }

  /** The line reflection of every point. */
  function ReflectAll(ps: seq<Point>, p1: Point, p2: Point): (r: seq<Point>)
    requires p1 != p2
    ensures |r| == |ps|
    ensures forall i :: 0 <= i < |ps| ==> r[i] == ReflectAcrossLine(ps[i], p1, p2).value
  {
    seq(|ps|, i requires 0 <= i < |ps| => ReflectAcrossLine(ps[i], p1, p2).value)
  }

  /** `_reflect_across_a_line(x1, y1, x2, y2)`: the first vertex already
      divides by zero when the two points of the line coincide; a shape
      without vertices is only queried. */
  function LineReflected(items: seq<Item>, tag: string, p1: Point, p2: Point): (r: Result<seq<Item>>)
    requires WholePoints(items)
    ensures r.Err? <==> CoordsOf(items, tag) != [] && p1 == p2
    ensures r.Err? ==> r.error == ZeroDivisionError
    ensures r.Ok? ==> WholePoints(r.value) && |r.value| == |items|
  {
    var cs := CoordsOf(items, tag);
    if cs == [] then Ok(items)
    else if p1 == p2 then Err(ZeroDivisionError)
    else
      var moved := FlatPoints(ReflectAll(Pairs(cs), p1, p2));
      WholePointsKept(items, tag, moved, [], "", 0.0, 0.0, 0.0, 0.0);
      Ok(Surface.SetCoords(items, tag, moved).value)
  }

  /** `reflect(*one_or_two_points)`: two numbers reflect across a point
      (a rotation by 180 degrees), four across a line, any other count does
      nothing. */
  function Reflected(items: seq<Item>, tag: string, args: seq<Coord>, lib: Library): (r: Result<seq<Item>>)
    requires WholePoints(items)
    ensures r.Ok? ==> WholePoints(r.value) && |r.value| == |items|
  {
    var xy := Flatten(args);
    if xy.Err? then Err(xy.error)
    else if |xy.value| == 2 then Ok(Rotated(items, tag, lib.cis(Radians(180.0)), (xy.value[0], xy.value[1])))
    else if |xy.value| == 4 then LineReflected(items, tag, (xy.value[0], xy.value[1]), (xy.value[2], xy.value[3]))
    else Ok(items)
  }

  // ---------------------------------------------------------------------
  // The shape object.

  /** A shape: the canvas it is drawn on, its id tag and its concrete class. */
  class Shape {
    const canvas: Canvas
    const idTag: string
    const kind: Kind

    constructor (canvas: Canvas, idTag: string, kind: Kind)
      ensures this.canvas == canvas && this.idTag == idTag && this.kind == kind
    {
      this.canvas := canvas;
      this.idTag := idTag;
      this.kind := kind;
    }

    /** `get_coords()`. */
    function GetCoords(): seq<real>
      reads canvas
    {
      canvas.Coords(idTag)
    }

    /** `gettags()`. */
    function GetTags(): seq<string>
      reads canvas
    {
      canvas.GetTags(idTag)
    }

    /** `bbox()`. */
    function Bbox(): Option<Box>
      reads canvas
    {
      canvas.BboxOf(idTag)
    }

    /** `bbox_center()`. */
    function BboxCenter(): Result<Point>
      reads canvas
    {
      BoxCenter(Bbox())
    }

    /** `config(tags=...)`; the other options are not modelled. */
    method Config(opt: TagsOption) returns (o: Outcome)
      modifies canvas
      ensures o.Fail? <==> opt.Raises()
      ensures o.Fail? ==> o.error == opt.Raised() && canvas.items == old(canvas.items)
      ensures o.Pass? ==> canvas.items == Configured(old(canvas.items), idTag, opt).value
    {
      var m := MergeTags(opt, idTag);
      if m.Err? {
        return Fail(m.error);
      }
      if m.value.Some? {
        canvas.ItemConfigTags(idTag, m.value.value);
      }
      return Pass;
    }

    /** `set_coords(*vertices)`. */
    method SetCoords(vertices: seq<Coord>) returns (o: Outcome)
      modifies canvas
      ensures Flatten(vertices).Err? ==> o == Fail(TypeError) && canvas.items == old(canvas.items)
      ensures Flatten(vertices).Ok? ==>
        var r := Surface.SetCoords(old(canvas.items), idTag, Flatten(vertices).value);
        && (o.Fail? <==> r.Err?)
        && (o.Fail? ==> o.error == TclError && canvas.items == old(canvas.items))
        && (o.Pass? ==> canvas.items == r.value)
    {
      FlattenFailsOnNonNumbers(vertices);
      var xs := Flatten(vertices);
      if xs.Err? {
        return Fail(xs.error);
      }
      o := canvas.UpdateCoords(idTag, xs.value);
    }

    /** `add_tag(new_tag)`. */
    method AddTag(newTag: string)
      modifies canvas
      ensures canvas.items == Surface.AddTag(old(canvas.items), newTag, idTag)
    {
      canvas.AddTagWithTag(newTag, idTag);
    }

    /** `dtag(tag)`. */
    method DTag(tag: string)
      modifies canvas
      ensures canvas.items == GuardedDTag(old(canvas.items), idTag, tag)
    {
      if tag != idTag {
        canvas.DeleteTag(idTag, tag);
      }
    }

    /** `move(dx, dy)`. */
    method Move(dx: real, dy: real)
      modifies canvas
      ensures canvas.items == Surface.Move(old(canvas.items), idTag, dx, dy)
    {
      canvas.MoveItems(idTag, dx, dy);
    }

    /** `scale(x0, y0, sx, sy)`. */
    method Scale(x0: real, y0: real, sx: real, sy: real)
      modifies canvas
      ensures canvas.items == Surface.Scale(old(canvas.items), idTag, x0, y0, sx, sy)
    {
      canvas.ScaleItems(idTag, x0, y0, sx, sy);
    }

    /** `rotate(angle, center, in_degrees)`. */
    method Rotate(angle: real, center: Point, inDegrees: bool, lib: Library)
      requires WholePoints(canvas.items)
      modifies canvas
      ensures canvas.items == Rotated(old(canvas.items), idTag, lib.cis(Turning(angle, inDegrees)), center)
    {
      var u := lib.cis(Turning(angle, inDegrees));
      var cs := canvas.Coords(idTag);
      var moved := FlatPoints(RotatePoints(Pairs(cs), u, center));
      var o := canvas.UpdateCoords(idTag, moved);
    }

    /** `_reflect_across_a_point(x, y)`: half a turn about the point. */
    method ReflectAcrossAPoint(c: Point, lib: Library)
      requires WholePoints(canvas.items)
      modifies canvas
      ensures canvas.items == Rotated(old(canvas.items), idTag, lib.cis(Radians(180.0)), c)
    {
      Rotate(180.0, c, true, lib);
    }

    /** `_reflect_across_a_line(x1, y1, x2, y2)`. */
    method ReflectAcrossALine(p1: Point, p2: Point) returns (o: Outcome)
      requires WholePoints(canvas.items)
      modifies canvas
      ensures var r := LineReflected(old(canvas.items), idTag, p1, p2);
        && (o.Fail? <==> r.Err?)
        && (o.Fail? ==> o.error == r.error && canvas.items == old(canvas.items))
        && (o.Pass? ==> canvas.items == r.value)
    {
      var cs := canvas.Coords(idTag);
      if cs == [] {
        return Pass;
      }
      if p1 == p2 {
        return Fail(ZeroDivisionError);
      }
      o := canvas.UpdateCoords(idTag, FlatPoints(ReflectAll(Pairs(cs), p1, p2)));
    }

    /** `reflect(*one_or_two_points)`. */
    method Reflect(args: seq<Coord>, lib: Library) returns (o: Outcome)
      requires WholePoints(canvas.items)
      modifies canvas
      ensures var r := Reflected(old(canvas.items), idTag, args, lib);
        && (o.Fail? <==> r.Err?)
        && (o.Fail? ==> o.error == r.error && canvas.items == old(canvas.items))
        && (o.Pass? ==> canvas.items == r.value)
    {
      var xy := Flatten(args);
      if xy.Err? {
        return Fail(xy.error);
      }
      if |xy.value| == 2 {
        ReflectAcrossAPoint((xy.value[0], xy.value[1]), lib);
        return Pass;
      }
      if |xy.value| == 4 {
        o := ReflectAcrossALine((xy.value[0], xy.value[1]), (xy.value[2], xy.value[3]));
        return;
      }
      return Pass;
    }
  }

  /** The end of `PolygonGraphics.__init__`, once `_create_graphics` has
      run: the default options, which leave the tags alone, then the
      caller's options. A bad `tags` option fails with the graphics already
      on the canvas. */
  method Configure(canvas: Canvas, id: string, kind: Kind, options: TagsOption) returns (r: Result<Shape>)
    modifies canvas
    ensures r.Err? <==> options.Raises()
    ensures r.Err? ==> r.error == options.Raised() && canvas.items == old(canvas.items)
    ensures r.Ok? ==> canvas.items == Configured(old(canvas.items), id, options).value
    ensures r.Ok? ==> fresh(r.value) && r.value.canvas == canvas && r.value.idTag == id && r.value.kind == kind
  {
    var shape := new Shape(canvas, id, kind);
    var o := shape.Config(Absent);
    o := shape.Config(options);
    if o.Fail? {
      return Err(o.error);
    }
    return Ok(shape);
  }

  /** `PolygonGraphics.__init__` for a shape whose `_create_graphics` draws
      the polygon `cs` tagged with the new id. */
  method Draw(canvas: Canvas, id: string, kind: Kind, cs: seq<real>, options: TagsOption) returns (r: Result<Shape>)
    requires |cs| % 2 == 0
    modifies canvas
    ensures var drawn := old(canvas.items) + [Item(cs, [id])];
      && (r.Err? <==> options.Raises())
      && (r.Err? ==> r.error == options.Raised() && canvas.items == drawn)
      && (r.Ok? ==> canvas.items == Configured(drawn, id, options).value)
    ensures r.Ok? ==> fresh(r.value) && r.value.canvas == canvas && r.value.idTag == id && r.value.kind == kind
  {
    var o := canvas.CreatePolygon(cs, [id]);
    r := Configure(canvas, id, kind, options);
  }

  /** The constructor of a shape that draws its points in angular order:
      the id is taken, then the sorted polygon drawn and configured. */
  method DrawSorted(canvas: Canvas, counter: IdCounter, cls: ShapeClass, xs: seq<real>,
                    options: TagsOption, atan2: (real, real) -> real) returns (r: Result<Shape>)
    requires |xs| >= 2 && |xs| % 2 == 0
    modifies canvas, counter
    ensures var id := Id(cls.Name(), old(counter.next));
      var drawn := old(canvas.items) + [Item(FlatPoints(SortForPlotting(xs, atan2).value), [id])];
      && counter.next == old(counter.next) + 1
      && (r.Err? <==> options.Raises())
      && (options.Raises() ==> r == Err(options.Raised()) && canvas.items == drawn)
      && (!options.Raises() ==> canvas.items == Configured(drawn, id, options).value)
    ensures r.Ok? ==> && fresh(r.value) && r.value.canvas == canvas && r.value.kind == Polygonal(cls)
                      && r.value.idTag == Id(cls.Name(), old(counter.next))
  {
    SortForPlottingOk(xs, atan2);
    var n := counter.Take();
    var id := Id(cls.Name(), n);
    var ps := SortForPlotting(xs, atan2).value;
    r := Draw(canvas, id, Polygonal(cls), FlatPoints(ps), options);
  }

  // ---------------------------------------------------------------------
  // Laws.

  /** `config` never loses the id tag, unless it is told to clear every tag. */
  lemma ConfigKeepsId(items: seq<Item>, id: string, opt: TagsOption, i: nat)
    requires IsTag(id) && i < |items| && id in items[i].tags
    requires Configured(items, id, opt).Ok?
    requires opt != Text("") && opt != Items([]) && !opt.Falsy?
    ensures id in Configured(items, id, opt).value[i].tags
  {
    var m := MergeTags(opt, id);
    if m.value.Some? {
      MergeKeepsId(opt, id);
      var ts := m.value.value;
      assert ts[|ts| - 1] == id;
    }
  }

  /** An empty `tags` option is passed through and clears every tag, the
      id tag included, so the shape can no longer find its item. */
  lemma ConfigEmptyTagsDropsId(items: seq<Item>, id: string, i: nat)
    requires i < |items| && id in items[i].tags
    ensures Configured(items, id, Text("")).value[i].tags == []
    ensures Configured(items, id, Items([])).value[i].tags == []
    ensures First(Configured(items, id, Text("")).value, id).None?
  {
    var after := Configured(items, id, Text("")).value;
    assert forall j :: 0 <= j < |after| ==> id !in after[j].tags;
  }

  /** A false `tags` value of another type skips the merge, so the item
      gets whatever tags Tk reads from it; unless those name the id, the
      shape can no longer find its item. */
  lemma ConfigFalsyDropsId(items: seq<Item>, id: string, read: seq<string>, i: nat)
    requires i < |items| && id in items[i].tags && id !in read
    ensures Configured(items, id, Falsy(read)).value[i].tags == read
    ensures First(Configured(items, id, Falsy(read)).value, id).None?
  {
    var after := Configured(items, id, Falsy(read)).value;
    assert forall j :: 0 <= j < |after| ==> id !in after[j].tags;
  }

  /** `dtag` removes any other tag from the shape but never its own id tag. */
  lemma GuardedDTagSpec(items: seq<Item>, id: string, tag: string, i: nat)
    requires i < |items| && id in items[i].tags
    ensures id in GuardedDTag(items, id, tag)[i].tags
    ensures tag != id ==> tag !in GuardedDTag(items, id, tag)[i].tags
    ensures forall t :: t in items[i].tags && t != tag ==> t in GuardedDTag(items, id, tag)[i].tags
  {
    DTagSpec(items, id, tag);
  }

  /** Rotation rewrites the vertices of the first item with the tag, keeps
      their number, and keeps each one's distance to the centre. */
  lemma RotatedVertices(items: seq<Item>, tag: string, u: Complex, c: Point)
    requires WholePoints(items) && NormSq(u) == 1.0
    ensures var before := CoordsOf(items, tag);
      var after := CoordsOf(Rotated(items, tag, u, c), tag);
      && after == FlatPoints(RotatePoints(Pairs(before), u, c))
      && |after| == |before|
      && forall i :: 0 <= i < |before| / 2 ==>
           NormSq(Sub(Of(Pairs(after)[i]), Of(c))) == NormSq(Sub(Of(Pairs(before)[i]), Of(c)))
  {
    var before := CoordsOf(items, tag);
    var moved := FlatPoints(RotatePoints(Pairs(before), u, c));
    var r := Rotated(items, tag, u, c);
    if First(items, tag).Some? && before != [] {
      SetCoordsThenCoords(items, tag, moved);
    }
    PairsRoundTrip(RotatePoints(Pairs(before), u, c));
  }

  /** Rotating by `u` and then by its conjugate restores the canvas. */
  lemma RotatedRoundTrip(items: seq<Item>, tag: string, u: Complex, c: Point)
    requires WholePoints(items) && NormSq(u) == 1.0
    ensures Rotated(Rotated(items, tag, u, c), tag, Conj(u), c) == items
  {
    var once := Rotated(items, tag, u, c);
    var cs := CoordsOf(items, tag);
    var moved := FlatPoints(RotatePoints(Pairs(cs), u, c));
    if First(items, tag).Some? && cs != [] {
      var k := First(items, tag).value;
      SetCoordsThenCoords(items, tag, moved);
      FirstSameTags(items, once, tag);
      PairsRoundTrip(RotatePoints(Pairs(cs), u, c));
      RotatePointsRoundTrip(Pairs(cs), u, c);
      FlatPointsRoundTrip(cs);
      assert once == items[k := items[k].(coords := moved)];
    }
  }

  /** `rotate(angle)` followed by `rotate(-angle)` about the same centre
      restores the canvas, for exact trigonometry. */
  lemma RotateBack(items: seq<Item>, tag: string, angle: real, c: Point, inDegrees: bool, lib: Library)
    requires WholePoints(items) && Exact(lib)
    ensures var once := Rotated(items, tag, lib.cis(Turning(angle, inDegrees)), c);
      Rotated(once, tag, lib.cis(Turning(-angle, inDegrees)), c) == items
  {
    var t := Turning(angle, inDegrees);
    var u := lib.cis(t);
    var v := lib.cis(Turning(-angle, inDegrees));
    RadiansOpposite(angle, inDegrees);
    assert Mul(u, v) == Complex(1.0, 0.0);
    assert NormSq(u) == 1.0;
    UnitInverse(u, v);
    RotatedRoundTrip(items, tag, u, c);
  }

  /** The inverse of a unit number is its conjugate. */
  lemma UnitInverse(u: Complex, v: Complex)
    requires NormSq(u) == 1.0 && Mul(u, v) == Complex(1.0, 0.0)
    ensures v == Conj(u)
  {
    MulAssoc(Conj(u), u, v);
    ConjInverse(u);
    assert Mul(Complex(1.0, 0.0), v) == v;
  }

  /** The dispatch of `reflect` on the number of coordinates it is given:
      a non-number raises TypeError; two numbers rotate by half a turn about
      that point; four reflect across the line; any other count changes nothing. */
  lemma ReflectDispatch(items: seq<Item>, tag: string, args: seq<Coord>, lib: Library)
    requires WholePoints(items)
    ensures Flatten(args).Err? ==> Reflected(items, tag, args, lib) == Err(TypeError)
    ensures Flatten(args).Err? <==> !AllNumeric(args)
    ensures Flatten(args).Ok? ==> var xy := Flatten(args).value;
      && (|xy| == 2 ==> Reflected(items, tag, args, lib) == Ok(Rotated(items, tag, lib.cis(Pi), (xy[0], xy[1]))))
      && (|xy| == 4 ==> Reflected(items, tag, args, lib) == LineReflected(items, tag, (xy[0], xy[1]), (xy[2], xy[3])))
      && (|xy| != 2 && |xy| != 4 ==> Reflected(items, tag, args, lib) == Ok(items))
  {
    FlattenFailsOnNonNumbers(args);
    RadiansHalfTurn();
  }

  /** Reflecting twice across the same point restores the canvas. */
  lemma PointReflectedTwice(items: seq<Item>, tag: string, c: Point, lib: Library)
    requires WholePoints(items) && Exact(lib)
    ensures Rotated(Rotated(items, tag, lib.cis(Pi), c), tag, lib.cis(Pi), c) == items
  {
    assert lib.cis(Pi) == MinusOne && Conj(MinusOne) == MinusOne;
    RotatedRoundTrip(items, tag, MinusOne, c);
  }

  /** Reflecting twice across the same line restores the canvas. */
  lemma LineReflectedTwice(items: seq<Item>, tag: string, p1: Point, p2: Point)
    requires WholePoints(items) && p1 != p2
    ensures LineReflected(LineReflected(items, tag, p1, p2).value, tag, p1, p2) == Ok(items)
  {
    var once := LineReflected(items, tag, p1, p2).value;
    var cs := CoordsOf(items, tag);
    var ps := Pairs(cs);
    if First(items, tag).Some? && cs != [] {
      var rs := ReflectAll(ps, p1, p2);
      var k := First(items, tag).value;
      SetCoordsThenCoords(items, tag, FlatPoints(rs));
      FirstSameTags(items, once, tag);
      PairsRoundTrip(rs);
      ReflectAllTwice(ps, p1, p2);
      FlatPointsRoundTrip(cs);
      assert once == items[k := items[k].(coords := FlatPoints(rs))];
      assert CoordsOf(once, tag) == FlatPoints(rs) != [];
      assert ReflectAll(Pairs(CoordsOf(once, tag)), p1, p2) == ps;
      assert Surface.SetCoords(once, tag, cs).value == once[k := once[k].(coords := cs)];
      assert once[k := once[k].(coords := cs)] == items;
    }
  }

  lemma ReflectAllTwice(ps: seq<Point>, p1: Point, p2: Point)
    requires p1 != p2
    ensures ReflectAll(ReflectAll(ps, p1, p2), p1, p2) == ps
  {
    var back := ReflectAll(ReflectAll(ps, p1, p2), p1, p2);
    forall i | 0 <= i < |ps| ensures back[i] == ps[i] {
      ReflectAcrossLineInvolution(ps[i], p1, p2);
    }
  }
}
