/** `Ellipse` and `Circle`. An ellipse draws a full turn of arc points
    around its centre. A circle builds an ellipse of equal semi-axes and
    then takes over its polygon: the circle's id tag is added to the item
    and the ellipse's id tag removed. */
module Ellipses {
  import opened Outcomes
  import opened Coordinates
  import opened Arcs
  import opened Tags
  import opened Identifiers
  import opened Surface
  import opened Polygon

  /** `center_point`: the centre of the bounding box of whatever carries the
      id tag, or the centre given to the constructor while nothing does. */
  function CenterPoint(items: seq<Item>, id: string, stored: Point): (c: Point)
    ensures Bbox(items, id).Some? ==> c == BoxCenter(Bbox(items, id)).value
    ensures Bbox(items, id).None? ==> c == stored
  {
    var b := BoxCenter(Bbox(items, id));
    if b.Ok? then b.value else stored
  }

  lemma {:induction false} TranslateConcat(a: seq<real>, b: seq<real>, dx: real, dy: real)
    requires |a| % 2 == 0
    ensures Translate(a + b, dx, dy) == Translate(a, dx, dy) + Translate(b, dx, dy)
  {
    if a != [] {
      TranslateConcat(a[2..], b, dx, dy);
      assert (a + b)[1..] == a[1..] + b && (a + b)[1..][1..] == a[2..] + b;
      assert a[1..][1..] == a[2..];
      calc {
        Translate(a + b, dx, dy);
        [a[0] + dx] + Translate(a[1..] + b, dy, dx);
        [a[0] + dx] + ([a[1] + dy] + Translate(a[2..] + b, dx, dy));
        [a[0] + dx] + ([a[1] + dy] + (Translate(a[2..], dx, dy) + Translate(b, dx, dy)));
        ([a[0] + dx] + ([a[1] + dy] + Translate(a[2..], dx, dy))) + Translate(b, dx, dy);
        { assert Translate(a[1..], dy, dx) == [a[1] + dy] + Translate(a[2..], dx, dy); }
        Translate(a, dx, dy) + Translate(b, dx, dy);
      }
    } else {
      assert a + b == b;
    }
  }

  /** Moving the items with a tag moves the coordinates `bbox` looks at. */
  lemma {:induction false} TaggedCoordsMove(items: seq<Item>, tag: string, dx: real, dy: real)
    requires WholePoints(items)
    ensures TaggedCoords(Move(items, tag, dx, dy), tag) == Translate(TaggedCoords(items, tag), dx, dy)
  {
    if items != [] {
      var moved := Move(items, tag, dx, dy);
      assert moved[1..] == Move(items[1..], tag, dx, dy);
      assert moved[0].tags == items[0].tags;
      TaggedCoordsMove(items[1..], tag, dx, dy);
      var head := if tag in items[0].tags then items[0].coords else [];
      TranslateConcat(head, TaggedCoords(items[1..], tag), dx, dy);
    }
  }

  /** The least and the greatest entry move with the entries. */
  lemma MinShift(s: seq<real>, d: real)
    requires s != []
    ensures Min(Shift(s, d)) == Min(s) + d
  {
    var t := Shift(s, d);
    var j := MinIn(t);
    var k := MinIn(s);
    assert Min(t) <= t[k] && Min(s) <= s[j];
  }

  lemma MaxShift(s: seq<real>, d: real)
    requires s != []
    ensures Max(Shift(s, d)) == Max(s) + d
  {
    var t := Shift(s, d);
    var j := MaxIn(t);
    var k := MaxIn(s);
    assert t[k] <= Max(t) && s[j] <= Max(s);
  }

  lemma MidpointShift(u: real, v: real, d: real)
    ensures ((u + d) + (v + d)) / 2.0 == (u + v) / 2.0 + d
  {
  }

  /** The box around translated coordinates is the translated box. */
  lemma TranslatedBox(xs: seq<real>, dx: real, dy: real)
    requires |xs| >= 2
    ensures var ys := Translate(xs, dx, dy);
      && Min(Evens(ys)) == Min(Evens(xs)) + dx && Max(Evens(ys)) == Max(Evens(xs)) + dx
      && Min(Odds(ys)) == Min(Odds(xs)) + dy && Max(Odds(ys)) == Max(Odds(xs)) + dy
  {
    TranslateSplits(xs, dx, dy);
    MinShift(Evens(xs), dx);
    MinShift(Odds(xs), dy);
    MaxShift(Evens(xs), dx);
    MaxShift(Odds(xs), dy);
  }

  /** The bounding box of moved items is the moved bounding box. */
  lemma BboxMove(items: seq<Item>, id: string, dx: real, dy: real, b: Box)
    requires WholePoints(items) && Bbox(items, id) == Some(b)
    ensures Bbox(Move(items, id, dx, dy), id) == Some(Box(b.x1 + dx, b.y1 + dy, b.x2 + dx, b.y2 + dy))
  {
    var xs := TaggedCoords(items, id);
    var moved := Move(items, id, dx, dy);
    TaggedCoordsMove(items, id, dx, dy);
    TranslatedBox(xs, dx, dy);
    BoxOfCoords(items, id, xs);
    BoxOfCoords(moved, id, Translate(xs, dx, dy));
    var ys := Translate(xs, dx, dy);
    assert b == Box(Min(Evens(xs)), Min(Odds(xs)), Max(Evens(xs)), Max(Odds(xs)));
    var p := Box(b.x1 + dx, b.y1 + dy, b.x2 + dx, b.y2 + dy);
    assert p.x1 == Min(Evens(ys)) && p.x2 == Max(Evens(ys));
    assert p.y1 == Min(Odds(ys)) && p.y2 == Max(Odds(ys));
    assert p == Box(Min(Evens(ys)), Min(Odds(ys)), Max(Evens(ys)), Max(Odds(ys)));
    assert Bbox(moved, id) == Some(p);
  }

  lemma BoxOfCoords(items: seq<Item>, id: string, xs: seq<real>)
    requires TaggedCoords(items, id) == xs && |xs| >= 2
    ensures Bbox(items, id) == Some(Box(Min(Evens(xs)), Min(Odds(xs)), Max(Evens(xs)), Max(Odds(xs))))
  {
  }

  /** `center_point` follows the shape when it is moved. */
  lemma CenterFollowsMove(items: seq<Item>, id: string, stored: Point, dx: real, dy: real)
    requires WholePoints(items) && Bbox(items, id).Some?
    ensures var c := CenterPoint(items, id, stored);
      CenterPoint(Move(items, id, dx, dy), id, stored) == (c.0 + dx, c.1 + dy)
  {
    var b := Bbox(items, id).value;
    BboxMove(items, id, dx, dy, b);
    var c := CenterPoint(items, id, stored);
    var moved := CenterPoint(Move(items, id, dx, dy), id, stored);
    CenterShift(c, moved, b, dx, dy);
  }

  lemma CenterShift(c: Point, moved: Point, b: Box, dx: real, dy: real)
    requires c == BoxCenter(Some(b)).value
    requires moved == BoxCenter(Some(Box(b.x1 + dx, b.y1 + dy, b.x2 + dx, b.y2 + dy))).value
    ensures moved == (c.0 + dx, c.1 + dy)
  {
    MidpointShift(b.x1, b.x2, dx);
    MidpointShift(b.y1, b.y2, dy);
  }

  /** The arc points `_create_graphics` draws: a full turn with the default
      number of points. */
  function Outline(lib: Library, a: real, b: real, c: Point): Result<seq<Point>> {
    ArcPoints(lib, a, b, c.0, c.1, 0.0, 360.0, None)
  }

  /** A negative semi-axis raises ValueError; otherwise the outline has at
      least 64 points, each on the ellipse, at `i * 360 / n` degrees for the `i`-th of `n` points. */
  lemma OutlineSpec(lib: Library, a: real, b: real, c: Point)
    ensures Outline(lib, a, b, c).Err? <==> a < 0.0 || b < 0.0
    ensures Outline(lib, a, b, c).Err? ==> Outline(lib, a, b, c).error == ValueError
    ensures Outline(lib, a, b, c).Ok? ==>
      var ps := Outline(lib, a, b, c).value;
      && |ps| == DefaultCount(a, 0.0, 360.0) >= 64
      && forall i :: 0 <= i < |ps| ==> ps[i] == ArcPoint(lib, a, b, c.0, c.1, ArcAngle(0.0, 360.0, |ps|, i))
  {
    if a >= 0.0 && b >= 0.0 {
      DefaultCountFullTurn(a);
    }
  }

  /** With equal semi-axes every vertex is at distance `r` from the centre. */
  lemma CircleOutline(lib: Library, r: real, c: Point)
    requires Exact(lib) && r >= 0.0
    ensures Outline(lib, r, r, c).Ok?
    ensures var ps := Outline(lib, r, r, c).value;
      forall i :: 0 <= i < |ps| ==> (ps[i].0 - c.0) * (ps[i].0 - c.0) + (ps[i].1 - c.1) * (ps[i].1 - c.1) == r * r
  {
    DefaultCountFullTurn(r);
    var n := DefaultCount(r, 0.0, 360.0);
    var ps := Outline(lib, r, r, c).value;
    forall i | 0 <= i < |ps|
      ensures (ps[i].0 - c.0) * (ps[i].0 - c.0) + (ps[i].1 - c.1) * (ps[i].1 - c.1) == r * r
    {
      OnCircleAt(lib, r, c, ps[i], ArcAngle(0.0, 360.0, n, i));
    }
  }

  lemma OnCircleAt(lib: Library, r: real, c: Point, p: Point, alpha: real)
    requires Exact(lib) && p == ArcPoint(lib, r, r, c.0, c.1, alpha)
    ensures (p.0 - c.0) * (p.0 - c.0) + (p.1 - c.1) * (p.1 - c.1) == r * r
  {
    ArcPointOnCircle(lib, r, c.0, c.1, alpha);
  }

  /** `Ellipse(canvas, a, b, cx, cy, **options)`: the id is taken first;
      the centre is read through `center_point`, which falls back to
      `(cx, cy)` while nothing carries the new id; a negative semi-axis then
      raises before anything is drawn. */
  method NewEllipse(canvas: Canvas, counter: IdCounter, a: real, b: real, cx: real, cy: real,
                    options: TagsOption, lib: Library) returns (r: Result<Shape>)
    modifies canvas, counter
    ensures counter.next == old(counter.next) + 1
    ensures var id := Id(Ellipse.Name(), old(counter.next));
      var arc := Outline(lib, a, b, CenterPoint(old(canvas.items), id, (cx, cy)));
      && (arc.Err? ==> r == Err(arc.error) && canvas.items == old(canvas.items))
      && (arc.Ok? ==>
            var drawn := old(canvas.items) + [Item(FlatPoints(arc.value), [id])];
            && (r.Err? <==> options.Raises())
            && (options.Raises() ==> r == Err(options.Raised()) && canvas.items == drawn)
            && (!options.Raises() ==> canvas.items == Configured(drawn, id, options).value))
    ensures r.Ok? ==> && fresh(r.value) && r.value.canvas == canvas && r.value.kind == EllipseShape(a, b, (cx, cy))
                      && r.value.idTag == Id(Ellipse.Name(), old(counter.next))
  {
    var n := counter.Take();
    var id := Id(Ellipse.Name(), n);
    var center := CenterPoint(canvas.items, id, (cx, cy));
    var arc := Outline(lib, a, b, center);
    if arc.Err? {
      return Err(arc.error);
    }
    r := Draw(canvas, id, EllipseShape(a, b, (cx, cy)), FlatPoints(arc.value), options);
  }

  /** Circle's `_create_graphics`: `addtag_withtag(circle, ellipse)` then
      `dtag(circle, ellipse)`. */
  function Handover(items: seq<Item>, ellipseId: string, circleId: string): seq<Item> {
    DTag(AddTag(items, circleId, ellipseId), circleId, ellipseId)
  }

  /** `Circle(canvas, radius, cx, cy, **options)`: the ellipse is built
      first, with the same options; only then is the circle's id taken. */
  method NewCircle(canvas: Canvas, counter: IdCounter, radius: real, cx: real, cy: real,
                   options: TagsOption, lib: Library) returns (r: Result<Shape>)
    modifies canvas, counter
    ensures var eid := Id(Ellipse.Name(), old(counter.next));
      var arc := Outline(lib, radius, radius, CenterPoint(old(canvas.items), eid, (cx, cy)));
      && (arc.Err? ==> && r == Err(arc.error) && canvas.items == old(canvas.items)
                       && counter.next == old(counter.next) + 1)
      && (arc.Ok? && options.Raises() ==>
            && r == Err(options.Raised()) && counter.next == old(counter.next) + 1
            && canvas.items == old(canvas.items) + [Item(FlatPoints(arc.value), [eid])])
      && (arc.Ok? && !options.Raises() ==>
            var cid := Id(Circle.Name(), old(counter.next) + 1);
            var drawn := old(canvas.items) + [Item(FlatPoints(arc.value), [eid])];
            var taken := Handover(Configured(drawn, eid, options).value, eid, cid);
            && r.Ok? && counter.next == old(counter.next) + 2
            && canvas.items == Configured(taken, cid, options).value
            && r.value.idTag == cid)
    ensures r.Ok? ==> fresh(r.value) && r.value.canvas == canvas && r.value.kind == CircleShape(radius, (cx, cy))
  {
    var e := NewEllipse(canvas, counter, radius, radius, cx, cy, options, lib);
    if e.Err? {
      return Err(e.error);
    }
    var n := counter.Take();
    var id := Id(Circle.Name(), n);
    canvas.AddTagWithTag(id, e.value.idTag);
    canvas.DeleteTag(id, e.value.idTag);
    r := Configure(canvas, id, CircleShape(radius, (cx, cy)), options);
  }

  /** The polygon a circle takes over ends up tagged exactly as if the
      circle had drawn it itself: the caller's tags, then the circle's id,
      and no longer the ellipse's id unless the caller's tags name it. */
  lemma CircleItemTags(items: seq<Item>, cs: seq<real>, eid: string, cid: string, opt: TagsOption)
    requires IsTag(eid) && IsTag(cid) && eid != cid && !opt.Raises()
    ensures var k := |items|;
      var drawn := items + [Item(cs, [eid])];
      var taken := Handover(Configured(drawn, eid, opt).value, eid, cid);
      var final := Configured(taken, cid, opt).value;
      && |final| == k + 1
      && final[k] == Item(cs, if opt.Absent? then [cid] else MergeTags(opt, cid).value.value)
  {
    var k := |items|;
    var drawn := items + [Item(cs, [eid])];
    var configured := Configured(drawn, eid, opt).value;
    var added := AddTag(configured, cid, eid);
    var taken := DTag(added, cid, eid);
    AddTagSpec(configured, cid, eid);
    DTagSpec(added, cid, eid);
    if opt.Absent? {
      assert configured[k].tags == [eid];
      assert added[k].tags == [eid, cid];
      assert [eid, cid][1..] == [cid] && [cid][1..] == [];
      assert Without([cid], eid) == [cid] + Without([], eid) == [cid];
      assert Without([eid, cid], eid) == Without([cid], eid);
    } else if opt == Text("") || opt == Items([]) {
      assert configured[k].tags == [];
      assert taken[k] == configured[k];
    } else if opt.Falsy? {
      assert configured[k].tags == opt.read;
      if eid in opt.read {
        assert cid in taken[k].tags;
      } else {
        assert taken[k] == configured[k];
      }
    } else {
      ConfigKeepsId(drawn, eid, opt, k);
      assert cid in taken[k].tags;
    }
  }
}
