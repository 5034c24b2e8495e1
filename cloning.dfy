/** `clone()`: a new shape of the same class, made by the class's
    `_instance_factory`, which is then given the original's tags and
    vertices. */
module Cloning {
  import opened Outcomes
  import opened Coordinates
  import opened Arcs
  import opened Tags
  import opened Identifiers
  import opened Surface
  import opened Polygon
  import Quadrilaterals
  import Triangles
  import Ellipses
  import Custom

  /** The kinds a constructor can give a shape: a polygonal shape is a
      triangle or one of the quadrilateral classes. */
  predicate Constructible(kind: Kind) {
    kind.Polygonal? ==> Quadrilaterals.IsQuadrilateralClass(kind.cls) || kind.cls == Triangle
  }

  /** The canvas items and the counter after a step, and the id tag of the
      shape the step made or the error it raised. */
  datatype Step = Step(items: seq<Item>, next: nat, made: Result<string>)

  /** `_instance_factory` of a triangle: `Triangle` on the original's
      current vertices. */
  function TriangleFactory(items: seq<Item>, next: nat, id: string, atan2: (real, real) -> real): (s: Step)
    ensures s.made.Ok? ==> |s.items| == |items| + 1 && s.items[..|items|] == items
    ensures s.made.Ok? ==> s.made.value == Id(Triangle.Name(), next) && s.items[|items|].tags == [s.made.value]
    ensures s.made.Ok? ==> |s.items[|items|].coords| % 2 == 0
    ensures s.made.Err? ==> s.items == items
  {
    var xs := CoordsOf(items, id);
    if |xs| != 6 then Step(items, next, Err(ValueError))
    else
      var newId := Id(Triangle.Name(), next);
      var drawn := items + [Item(FlatPoints(SortForPlotting(xs, atan2).value), [newId])];
      assert drawn[..|items|] == items;
      Step(drawn, next + 1, Ok(newId))
  }

  /** `_instance_factory` of a quadrilateral: the class's constructor on the
      original's current vertices, which runs the class's test again. */
  function QuadrilateralFactory(items: seq<Item>, next: nat, cls: ShapeClass, id: string,
                                atan2: (real, real) -> real): (s: Step)
    ensures s.made.Ok? ==> |s.items| == |items| + 1 && s.items[..|items|] == items
    ensures s.made.Ok? ==> s.made.value == Id(cls.Name(), next) && s.items[|items|].tags == [s.made.value]
    ensures s.made.Ok? ==> |s.items[|items|].coords| % 2 == 0
    ensures s.next == next ==> s.items == items
  {
    var xs := CoordsOf(items, id);
    if |xs| != 8 then Step(items, next, Err(ValueError))
    else
      var newId := Id(cls.Name(), next);
      var drawn := items + [Item(FlatPoints(SortForPlotting(xs, atan2).value), [newId])];
      var test := Quadrilaterals.Accepts(cls, xs, atan2);
      var made := if test == Ok(true) then Ok(newId) else if test.Err? then Err(test.error) else Err(ValueError);
      assert drawn[..|items|] == items;
      Step(drawn, next + 1, made)
  }

  /** `_instance_factory` of an ellipse: `Ellipse` on the same axes about
      the current centre. */
  function EllipseFactory(items: seq<Item>, next: nat, a: real, b: real, c: Point, id: string,
                          lib: Library): (s: Step)
    ensures s.made.Ok? ==> |s.items| == |items| + 1 && s.items[..|items|] == items
    ensures s.made.Ok? ==> s.made.value == Id(Ellipse.Name(), next) && s.items[|items|].tags == [s.made.value]
    ensures s.made.Ok? ==> |s.items[|items|].coords| % 2 == 0
    ensures s.made.Err? ==> s.items == items
  {
    var eid := Id(Ellipse.Name(), next);
    var arc := Ellipses.Outline(lib, a, b, Ellipses.CenterPoint(items, eid, Ellipses.CenterPoint(items, id, c)));
    if arc.Err? then Step(items, next + 1, Err(arc.error))
    else
      var drawn := items + [Item(FlatPoints(arc.value), [eid])];
      assert drawn[..|items|] == items;
      Step(drawn, next + 1, Ok(eid))
  }

  /** `_instance_factory` of a circle: `Circle` of the same radius about the
      current centre, which draws an ellipse and takes its polygon over. */
  function CircleFactory(items: seq<Item>, next: nat, radius: real, c: Point, id: string,
                         lib: Library): (s: Step)
    ensures s.made.Ok? ==> |s.items| == |items| + 1
    ensures s.made.Err? ==> s.items == items
  {
    var eid := Id(Ellipse.Name(), next);
    var arc := Ellipses.Outline(lib, radius, radius, Ellipses.CenterPoint(items, eid, Ellipses.CenterPoint(items, id, c)));
    if arc.Err? then Step(items, next + 1, Err(arc.error))
    else
      var cid := Id(Circle.Name(), next + 1);
      Step(Ellipses.Handover(items + [Item(FlatPoints(arc.value), [eid])], eid, cid), next + 2, Ok(cid))
  }

  /** `_instance_factory` of a concave circular hypotenuse: the constructor
      on `side` and `(r / side) ** 2`. */
  function HypotenuseFactory(items: seq<Item>, next: nat, side: real, r: real, lib: Library): (s: Step)
    ensures s.made.Ok? ==> |s.items| == |items| + 1 && s.items[..|items|] == items
    ensures s.made.Ok? ==> s.made.value == Id(ConcaveCircularHypotenuse.Name(), next) && s.items[|items|].tags == [s.made.value]
    ensures s.made.Ok? ==> |s.items[|items|].coords| % 2 == 0
    ensures s.made.Err? ==> s.items == items
  {
    var args := Custom.FactoryArguments(side, r);
    if args.Err? then Step(items, next, Err(args.error))
    else if args.value.0 < 0.0 || args.value.1 < 1.0 then Step(items, next, Err(ValueError))
    else
      var hid := Id(ConcaveCircularHypotenuse.Name(), next);
      var o := Custom.Outline(lib, args.value.0, Custom.Radius(lib, args.value.0, args.value.1));
      if o.Err? then Step(items, next + 1, Err(o.error))
      else
        var drawn := items + [Item(FlatPoints(o.value), [hid])];
        assert drawn[..|items|] == items;
        Step(drawn, next + 1, Ok(hid))
  }

  /** What `_instance_factory` does, class by class. */
  function Factory(items: seq<Item>, next: nat, kind: Kind, id: string, lib: Library,
                   atan2: (real, real) -> real): (s: Step)
    ensures s.made.Ok? ==> |s.items| == |items| + 1
    ensures s.made.Ok? && !kind.CircleShape? ==> s.items[..|items|] == items
  {
    match kind
    case Polygonal(cls) =>
      if cls == Triangle then TriangleFactory(items, next, id, atan2)
      else QuadrilateralFactory(items, next, cls, id, atan2)
    case EllipseShape(a, b, c) => EllipseFactory(items, next, a, b, c, id, lib)
    case CircleShape(radius, c) => CircleFactory(items, next, radius, c, id, lib)
    case Hypotenuse(side, r) => HypotenuseFactory(items, next, side, r, lib)
  }

  /** The kind of the shape the factory makes. */
  function FactoryKind(items: seq<Item>, kind: Kind, id: string, lib: Library): (k: Kind)
    ensures k.Class() == kind.Class()
  {
    match kind
    case Polygonal(cls) => kind
    case EllipseShape(a, b, c) => EllipseShape(a, b, Ellipses.CenterPoint(items, id, c))
    case CircleShape(radius, c) => CircleShape(radius, Ellipses.CenterPoint(items, id, c))
    case Hypotenuse(side, r) =>
      var args := Custom.FactoryArguments(side, r);
      if args.Err? then kind else Hypotenuse(args.value.0, Custom.Radius(lib, args.value.0, args.value.1))
  }

  /** The middle of `clone()`: `config(**all_cget())` hands the new shape
      the original's tags as one string (there is nothing to read when no
      item carries the original's id), and `dtag` removes the original's id
      tag from it. */
  function Retagged(items: seq<Item>, origId: string, newId: string): (r: seq<Item>)
    ensures |r| == |items|
  {
    var ts := TagsOf(items, origId);
    var configured := Configured(items, newId, if ts == [] then Absent else Text(Join(ts))).value;
    GuardedDTag(configured, newId, origId)
  }

  /** The end of `clone()`: `set_coords(get_coords())` copies the
      original's vertices. */
  function Adopt(items: seq<Item>, origId: string, newId: string): (r: Result<seq<Item>>)
    ensures r.Ok? ==> |r.value| == |items|
  {
    var retagged := Retagged(items, origId, newId);
    Surface.SetCoords(retagged, newId, CoordsOf(retagged, origId))
  }

  /** The whole of `clone()`: the factory, then the adoption. */
  function Cloned(items: seq<Item>, next: nat, kind: Kind, id: string, lib: Library,
                  atan2: (real, real) -> real): Step
  {
    var f := Factory(items, next, kind, id, lib, atan2);
    if f.made.Err? then f
    else match Adopt(f.items, id, f.made.value)
      case Err(e) => Step(Retagged(f.items, id, f.made.value), f.next, Err(e))
      case Ok(after) => Step(after, f.next, f.made)
  }

  /** `_instance_factory()` of a triangle. */
  method TriangleInstance(shape: Shape, counter: IdCounter, atan2: (real, real) -> real)
    returns (r: Result<Shape>)
    requires shape.kind == Polygonal(Triangle)
    modifies shape.canvas, counter
    ensures var f := TriangleFactory(old(shape.canvas.items), old(counter.next), shape.idTag, atan2);
      && shape.canvas.items == f.items && counter.next == f.next
      && (r.Err? <==> f.made.Err?)
      && (r.Err? ==> r.error == f.made.error)
      && (r.Ok? ==> r.value.idTag == f.made.value)
    ensures r.Ok? ==> fresh(r.value) && r.value.canvas == shape.canvas && r.value.kind == shape.kind
  {
    var xs := shape.GetCoords();
    FlattenFlat(xs);
    r := Triangles.NewTriangle(shape.canvas, counter, Nums(xs), Absent, atan2);
  }

  /** `_instance_factory()` of a quadrilateral. */
  method QuadrilateralInstance(shape: Shape, counter: IdCounter, cls: ShapeClass, atan2: (real, real) -> real)
    returns (r: Result<Shape>)
    requires shape.kind == Polygonal(cls) && Quadrilaterals.IsQuadrilateralClass(cls)
    modifies shape.canvas, counter
    ensures var f := QuadrilateralFactory(old(shape.canvas.items), old(counter.next), cls, shape.idTag, atan2);
      && shape.canvas.items == f.items && counter.next == f.next
      && (r.Err? <==> f.made.Err?)
      && (r.Err? ==> r.error == f.made.error)
      && (r.Ok? ==> r.value.idTag == f.made.value)
    ensures r.Ok? ==> fresh(r.value) && r.value.canvas == shape.canvas && r.value.kind == shape.kind
  {
    ghost var before, n := shape.canvas.items, counter.next;
    var xs := shape.GetCoords();
    FlattenFlat(xs);
    r := Quadrilaterals.NewQuadrilateral(shape.canvas, counter, cls, Nums(xs), Absent, atan2);
    ghost var f := QuadrilateralFactory(before, n, cls, shape.idTag, atan2);
    if |xs| == 8 {
      assert f.items == before + [Item(FlatPoints(SortForPlotting(xs, atan2).value), [Id(cls.Name(), n)])];
      ghost var test := Quadrilaterals.Accepts(cls, xs, atan2);
      if test.Err? {
        assert r == Err(test.error) && f.made == Err(test.error);
      } else if test.value {
        assert f.made == Ok(Id(cls.Name(), n));
      } else {
        assert r == Err(ValueError) && f.made == Err(ValueError);
      }
    }
  }

  /** `_instance_factory()` of an ellipse. */
  method EllipseInstance(shape: Shape, counter: IdCounter, lib: Library) returns (r: Result<Shape>)
    requires shape.kind.EllipseShape?
    modifies shape.canvas, counter
    ensures var f := EllipseFactory(old(shape.canvas.items), old(counter.next), shape.kind.a, shape.kind.b,
                                    shape.kind.center, shape.idTag, lib);
      && shape.canvas.items == f.items && counter.next == f.next
      && (r.Err? <==> f.made.Err?)
      && (r.Err? ==> r.error == f.made.error)
      && (r.Ok? ==> r.value.idTag == f.made.value)
    ensures r.Ok? ==> && fresh(r.value) && r.value.canvas == shape.canvas
                      && r.value.kind == FactoryKind(old(shape.canvas.items), shape.kind, shape.idTag, lib)
  {
    var center := Ellipses.CenterPoint(shape.canvas.items, shape.idTag, shape.kind.center);
    r := Ellipses.NewEllipse(shape.canvas, counter, shape.kind.a, shape.kind.b, center.0, center.1, Absent, lib);
  }

  /** `_instance_factory()` of a circle. */
  method CircleInstance(shape: Shape, counter: IdCounter, lib: Library) returns (r: Result<Shape>)
    requires shape.kind.CircleShape?
    modifies shape.canvas, counter
    ensures var f := CircleFactory(old(shape.canvas.items), old(counter.next), shape.kind.radius,
                                   shape.kind.center, shape.idTag, lib);
      && shape.canvas.items == f.items && counter.next == f.next
      && (r.Err? <==> f.made.Err?)
      && (r.Err? ==> r.error == f.made.error)
      && (r.Ok? ==> r.value.idTag == f.made.value)
    ensures r.Ok? ==> && fresh(r.value) && r.value.canvas == shape.canvas
                      && r.value.kind == FactoryKind(old(shape.canvas.items), shape.kind, shape.idTag, lib)
  {
    var center := Ellipses.CenterPoint(shape.canvas.items, shape.idTag, shape.kind.center);
    r := Ellipses.NewCircle(shape.canvas, counter, shape.kind.radius, center.0, center.1, Absent, lib);
  }

  /** `_instance_factory()` of a concave circular hypotenuse. */
  method HypotenuseInstance(shape: Shape, counter: IdCounter, lib: Library) returns (r: Result<Shape>)
    requires shape.kind.Hypotenuse?
    modifies shape.canvas, counter
    ensures var f := HypotenuseFactory(old(shape.canvas.items), old(counter.next), shape.kind.side, shape.kind.r, lib);
      && shape.canvas.items == f.items && counter.next == f.next
      && (r.Err? <==> f.made.Err?)
      && (r.Err? ==> r.error == f.made.error)
      && (r.Ok? ==> r.value.idTag == f.made.value)
    ensures r.Ok? ==> && fresh(r.value) && r.value.canvas == shape.canvas
                      && r.value.kind == FactoryKind(old(shape.canvas.items), shape.kind, shape.idTag, lib)
  {
    var args := Custom.FactoryArguments(shape.kind.side, shape.kind.r);
    if args.Err? {
      return Err(args.error);
    }
    r := Custom.NewHypotenuse(shape.canvas, counter, args.value.0, args.value.1, Absent, lib);
  }

  /** `_instance_factory()`, dispatched on the class. */
  method MakeInstance(shape: Shape, counter: IdCounter, lib: Library, atan2: (real, real) -> real)
    returns (r: Result<Shape>)
    requires Constructible(shape.kind)
    modifies shape.canvas, counter
    ensures var f := Factory(old(shape.canvas.items), old(counter.next), shape.kind, shape.idTag, lib, atan2);
      && shape.canvas.items == f.items && counter.next == f.next
      && (r.Err? <==> f.made.Err?)
      && (r.Err? ==> r.error == f.made.error)
      && (r.Ok? ==> r.value.idTag == f.made.value)
    ensures r.Ok? ==> && fresh(r.value) && r.value.canvas == shape.canvas
                      && r.value.kind == FactoryKind(old(shape.canvas.items), shape.kind, shape.idTag, lib)
  {
    match shape.kind
    case Polygonal(cls) =>
      if cls == Triangle {
        r := TriangleInstance(shape, counter, atan2);
      } else {
        r := QuadrilateralInstance(shape, counter, cls, atan2);
      }
    case EllipseShape(_, _, _) =>
      r := EllipseInstance(shape, counter, lib);
    case CircleShape(_, _) =>
      r := CircleInstance(shape, counter, lib);
    case Hypotenuse(_, _) =>
      r := HypotenuseInstance(shape, counter, lib);
  }

  /** `clone()`. */
  method Clone(shape: Shape, counter: IdCounter, lib: Library, atan2: (real, real) -> real)
    returns (r: Result<Shape>)
    requires Constructible(shape.kind)
    modifies shape.canvas, counter
    ensures var s := Cloned(old(shape.canvas.items), old(counter.next), shape.kind, shape.idTag, lib, atan2);
      && shape.canvas.items == s.items && counter.next == s.next
      && (r.Err? <==> s.made.Err?)
      && (r.Err? ==> r.error == s.made.error)
      && (r.Ok? ==> r.value.idTag == s.made.value)
    ensures r.Ok? ==> && fresh(r.value) && r.value.canvas == shape.canvas
                      && r.value.kind == FactoryKind(old(shape.canvas.items), shape.kind, shape.idTag, lib)
  {
    ghost var before, next := shape.canvas.items, counter.next;
    r := MakeInstance(shape, counter, lib, atan2);
    ghost var f := Factory(before, next, shape.kind, shape.idTag, lib, atan2);
    if r.Err? {
      assert Cloned(before, next, shape.kind, shape.idTag, lib, atan2) == f;
      assert shape.canvas.items == f.items;
      return;
    }
    var copy := r.value;
    ghost var made := shape.canvas.items;
    var ts := shape.GetTags();
    var o := copy.Config(if ts == [] then Absent else Text(Join(ts)));
    copy.DTag(shape.idTag);
    var cs := shape.GetCoords();
    FlattenWrapped(Nums(cs));
    FlattenFlat(cs);
    o := copy.SetCoords([Nested(Nums(cs))]);
    ghost var a := Adopt(made, shape.idTag, copy.idTag);
    assert o.Fail? <==> a.Err?;
    if o.Fail? {
      assert Cloned(before, next, shape.kind, shape.idTag, lib, atan2)
          == Step(Retagged(made, shape.idTag, copy.idTag), f.next, Err(a.error));
      return Err(o.error);
    }
    assert Cloned(before, next, shape.kind, shape.idTag, lib, atan2) == Step(a.value, f.next, f.made);
  }

  // ---------------------------------------------------------------------
  // Laws.

  /** No item carries `t`. */
  predicate Unused(items: seq<Item>, t: string) {
    forall k :: 0 <= k < |items| ==> t !in items[k].tags
  }

  lemma {:induction false} FirstIs(items: seq<Item>, tag: string, i: nat)
    requires i < |items| && tag in items[i].tags
    requires forall k :: 0 <= k < i ==> tag !in items[k].tags
    ensures First(items, tag) == Some(i)
  {
    if i > 0 {
      FirstIs(items[1..], tag, i - 1);
    }
  }

  lemma {:induction false} WithoutAppend(ts: seq<string>, t: string, u: string)
    requires u != t
    ensures Without(ts + [u], t) == Without(ts, t) + [u]
  {
    if ts == [] {
      assert [u][1..] == [];
    } else {
      assert (ts + [u])[1..] == ts[1..] + [u];
      WithoutAppend(ts[1..], t, u);
    }
  }

  lemma JoinNotEmpty(ts: seq<string>)
    requires ts != [] && AllTags(ts)
    ensures Join(ts) != ""
  {
    SplitJoin(ts);
  }

  /** The retagging gives the new item every tag of the original but its id
      tag, followed by the new id tag; no other item changes. */
  lemma RetaggedCopiesTags(items: seq<Item>, origId: string, newId: string, i: nat, j: nat)
    requires First(items, origId) == Some(i) && AllTags(items[i].tags) && IsTag(newId)
    requires j < |items| && i != j && newId in items[j].tags
    requires forall k :: 0 <= k < |items| && k != j ==> newId !in items[k].tags
    ensures Retagged(items, origId, newId) == items[j := items[j].(tags := Without(items[i].tags, origId) + [newId])]
  {
    RetaggedSteps(items, origId, newId, i);
    RetagThenDTag(items, items[i].tags, origId, newId, j);
  }

  /** Giving item `j` alone the tags `ts` and `newId`, then deleting `origId`
      from it. */
  lemma RetagThenDTag(items: seq<Item>, ts: seq<string>, origId: string, newId: string, j: nat)
    requires j < |items| && newId in items[j].tags && origId in ts && newId !in ts
    requires forall k :: 0 <= k < |items| && k != j ==> newId !in items[k].tags
    ensures DTag(Retag(items, newId, ts + [newId]), newId, origId)
      == items[j := items[j].(tags := Without(ts, origId) + [newId])]
  {
    RetagOfOnly(items, newId, ts + [newId], j);
    WithoutAppend(ts, origId, newId);
    DTagOfOnly(items[j := items[j].(tags := ts + [newId])], newId, origId, j);
  }

  /** The retagging is one `itemconfig` and one `dtag`. */
  lemma RetaggedSteps(items: seq<Item>, origId: string, newId: string, i: nat)
    requires First(items, origId) == Some(i) && AllTags(items[i].tags) && IsTag(newId)
    requires newId !in items[i].tags
    ensures origId in items[i].tags
    ensures Retagged(items, origId, newId) == DTag(Retag(items, newId, items[i].tags + [newId]), newId, origId)
  {
    var ts := items[i].tags;
    assert TagsOf(items, origId) == ts && origId in ts;
    JoinNotEmpty(ts);
    SplitJoin(ts);
    MergeText(Join(ts), newId);
  }

  /** `itemconfig` of the tags through a tag that only item `j` carries
      touches that item alone. */
  lemma RetagOfOnly(items: seq<Item>, withTag: string, ts: seq<string>, j: nat)
    requires j < |items| && withTag in items[j].tags
    requires forall k :: 0 <= k < |items| && k != j ==> withTag !in items[k].tags
    ensures Retag(items, withTag, ts) == items[j := items[j].(tags := ts)]
  {
    assert forall k :: 0 <= k < |items| && k != j ==> Retag(items, withTag, ts)[k] == items[k];
  }

  /** `dtag` through a tag that only item `j` carries touches that item alone. */
  lemma DTagOfOnly(items: seq<Item>, withTag: string, tagToDelete: string, j: nat)
    requires j < |items| && withTag in items[j].tags
    requires forall k :: 0 <= k < |items| && k != j ==> withTag !in items[k].tags
    ensures DTag(items, withTag, tagToDelete) == items[j := items[j].(tags := Without(items[j].tags, tagToDelete))]
  {
    assert forall k :: 0 <= k < |items| && k != j ==> DTag(items, withTag, tagToDelete)[k] == items[k];
  }

  /** The adoption gives the new item the original's vertices (unless it has
      none) and every tag of the original but its id tag, followed by the new
      id tag; no other item changes. */
  lemma AdoptCopies(items: seq<Item>, origId: string, newId: string, i: nat, j: nat)
    requires WholePoints(items)
    requires First(items, origId) == Some(i) && AllTags(items[i].tags) && IsTag(newId)
    requires j < |items| && i != j && newId in items[j].tags
    requires forall k :: 0 <= k < |items| && k != j ==> newId !in items[k].tags
    ensures Adopt(items, origId, newId)
      == Ok(items[j := Item(if items[i].coords == [] then items[j].coords else items[i].coords,
                            Without(items[i].tags, origId) + [newId])])
  {
    RetaggedCopiesTags(items, origId, newId, i, j);
    var stripped := Retagged(items, origId, newId);
    assert origId in items[i].tags;
    assert origId !in stripped[j].tags;
    FirstIs(stripped, origId, i);
    FirstIs(stripped, newId, j);
    var cs := items[i].coords;
    var tags := Without(items[i].tags, origId) + [newId];
    assert CoordsOf(stripped, origId) == cs;
    if cs == [] {
      assert items[j].(tags := tags) == Item(items[j].coords, tags);
      assert Adopt(items, origId, newId) == Ok(stripped);
    } else {
      assert |cs| % 2 == 0;
      assert stripped[j].(coords := cs) == Item(cs, tags);
      assert stripped[j := Item(cs, tags)] == items[j := Item(cs, tags)];
      assert Adopt(items, origId, newId) == Ok(stripped[j := Item(cs, tags)]);
    }
  }

  /** A successful factory call appends one item, tagged with the new id
      tag alone and holding whole points, and leaves the others as they
      were, provided no item already carries an id tag the counter is about
      to hand out. */
  lemma FactoryAppends(items: seq<Item>, next: nat, kind: Kind, id: string, lib: Library,
                       atan2: (real, real) -> real)
    requires Constructible(kind)
    requires Unused(items, Id(Ellipse.Name(), next)) && Unused(items, Id(Circle.Name(), next + 1))
    ensures var f := Factory(items, next, kind, id, lib, atan2);
      f.made.Ok? ==>
        && |f.items| == |items| + 1 && f.items[..|items|] == items
        && f.items[|items|].tags == [f.made.value]
        && |f.items[|items|].coords| % 2 == 0
        && f.made.value == Id(kind.Class().Name(), if kind.CircleShape? then next + 1 else next)
  {
    if kind.CircleShape? {
      CircleFactoryAppends(items, next, kind.radius, kind.center, id, lib);
    }
  }

  lemma CircleFactoryAppends(items: seq<Item>, next: nat, radius: real, c: Point, id: string, lib: Library)
    requires Unused(items, Id(Ellipse.Name(), next)) && Unused(items, Id(Circle.Name(), next + 1))
    ensures var f := CircleFactory(items, next, radius, c, id, lib);
      f.made.Ok? ==>
        && f.items[..|items|] == items
        && f.items[|items|].tags == [Id(Circle.Name(), next + 1)] == [f.made.value]
        && |f.items[|items|].coords| % 2 == 0
  {
    var f := CircleFactory(items, next, radius, c, id, lib);
    if f.made.Ok? {
      var eid := Id(Ellipse.Name(), next);
      var cid := Id(Circle.Name(), next + 1);
      NamesAreNames(Ellipse);
      NamesAreNames(Circle);
      if eid == cid {
        IdInjective(Ellipse.Name(), next, Circle.Name(), next + 1);
        assert false;
      }
      var arc := Ellipses.Outline(lib, radius, radius, Ellipses.CenterPoint(items, eid, Ellipses.CenterPoint(items, id, c)));
      var drawn := items + [Item(FlatPoints(arc.value), [eid])];
      var added := AddTag(drawn, cid, eid);
      AddTagSpec(drawn, cid, eid);
      DTagSpec(added, cid, eid);
      assert added[|items|].tags == [eid, cid];
      assert [eid, cid][1..] == [cid] && [cid][1..] == [];
      assert Without([cid], eid) == [cid] + Without([], eid) == [cid];
      assert Without([eid, cid], eid) == Without([cid], eid);
      assert f.items == DTag(added, cid, eid);
      assert f.items[..|items|] == items;
    }
  }

  /** A clone fails only when its factory fails. When it succeeds it appends
      one item: the original's vertices, when it has any, under every tag
      of the original but its id tag, followed by the new id tag. Every
      item already on the canvas is left as it was. */
  lemma CloneCopies(items: seq<Item>, next: nat, kind: Kind, id: string, lib: Library,
                    atan2: (real, real) -> real)
    requires Constructible(kind) && WholePoints(items)
    requires First(items, id).Some? && AllTags(TagsOf(items, id))
    requires Unused(items, Id(kind.Class().Name(), next))
    requires Unused(items, Id(Ellipse.Name(), next)) && Unused(items, Id(Circle.Name(), next + 1))
    ensures var s := Cloned(items, next, kind, id, lib, atan2);
      && (s.made.Ok? <==> Factory(items, next, kind, id, lib, atan2).made.Ok?)
      && (s.made.Ok? ==>
            && |s.items| == |items| + 1 && s.items[..|items|] == items
            && s.items[|items|].tags == Without(TagsOf(items, id), id) + [s.made.value]
            && (CoordsOf(items, id) != [] ==> s.items[|items|].coords == CoordsOf(items, id)))
  {
    var f := Factory(items, next, kind, id, lib, atan2);
    if f.made.Ok? {
      FactoryAppends(items, next, kind, id, lib, atan2);
      NamesAreNames(kind.Class());
      IdIsTag(kind.Class().Name(), if kind.CircleShape? then next + 1 else next);
      AdoptAppended(items, f.items, id, f.made.value);
    }
  }

  /** The adoption on a canvas to which the factory appended one item. */
  lemma AdoptAppended(items: seq<Item>, made: seq<Item>, id: string, newId: string)
    requires WholePoints(items) && First(items, id).Some? && AllTags(TagsOf(items, id))
    requires IsTag(newId) && Unused(items, newId)
    requires |made| == |items| + 1 && made[..|items|] == items
    requires made[|items|].tags == [newId] && |made[|items|].coords| % 2 == 0
    ensures var cs := CoordsOf(items, id);
      Adopt(made, id, newId)
        == Ok(made[|items| := Item(if cs == [] then made[|items|].coords else cs,
                                   Without(TagsOf(items, id), id) + [newId])])
  {
    var i := First(items, id).value;
    var j := |items|;
    assert made[i] == items[i];
    forall k | 0 <= k < |made| && k != j
      ensures newId !in made[k].tags
    {
      assert made[k] == items[k];
    }
    assert WholePoints(made) by {
      forall k | 0 <= k < |made|
        ensures |made[k].coords| % 2 == 0
      {
        if k < j {
          assert made[k] == items[k];
        }
      }
    }
    forall k | 0 <= k < i
      ensures id !in made[k].tags
    {
      assert made[k] == items[k];
    }
    FirstIs(made, id, i);
    AdoptCopies(made, id, newId, i, j);
  }

  /** The factory of a concave circular hypotenuse recovers the side and the
      curvature the shape was made with, for an exact square root. */
  lemma HypotenuseCloneKind(items: seq<Item>, side: real, k: real, id: string, lib: Library)
    requires Exact(lib) && side > 0.0 && k >= 1.0
    ensures var kind := Hypotenuse(side, Custom.Radius(lib, side, k));
      FactoryKind(items, kind, id, lib) == kind
  {
    Custom.FactoryRoundTrip(lib, side, k);
  }
}
