/** `Group`: shapes handled as one graphic. Every member carries the
    group's own id tag, so moving and scaling go to the canvas with that
    tag; rotation, reflection and cloning go to each member in list order. */
module Groups {
  import opened Outcomes
  import opened Coordinates
  import opened ComplexPlane
  import opened Arcs
  import opened Tags
  import opened Identifiers
  import opened Surface
  import opened Polygon
  import Cloning

  /** The id tags of the shapes, in order. */
  function Ids(shapes: seq<Shape>): (ids: seq<string>)
    ensures |ids| == |shapes|
    ensures forall i :: 0 <= i < |shapes| ==> ids[i] == shapes[i].idTag
  {
    seq(|shapes|, i requires 0 <= i < |shapes| => shapes[i].idTag)
  }

  lemma IdsAppend(shapes: seq<Shape>, g: Shape)
    ensures Ids(shapes + [g]) == Ids(shapes) + [g.idTag]
  {
    assert forall i :: 0 <= i < |shapes| ==> (shapes + [g])[i] == shapes[i];
  }

  // ---------------------------------------------------------------------
  // The group tag.

  /** `g.add_tag(group)` for each id in turn. */
  function TagEach(items: seq<Item>, group: string, ids: seq<string>): (r: seq<Item>)
    ensures |r| == |items|
    decreases |ids|
  {
    if ids == [] then items
    else AddTag(TagEach(items, group, ids[..|ids| - 1]), group, ids[|ids| - 1])
  }

  /** `g.dtag(group)` for each id in turn. */
  function UntagEach(items: seq<Item>, group: string, ids: seq<string>): (r: seq<Item>)
    ensures |r| == |items|
    decreases |ids|
  {
    if ids == [] then items
    else GuardedDTag(UntagEach(items, group, ids[..|ids| - 1]), ids[|ids| - 1], group)
  }

  /** Tagging the members: every item carrying a member's id gains the
      group tag and keeps its own tags; no other item changes; no
      coordinates change. */
  lemma {:induction false} TagEachSpec(items: seq<Item>, group: string, ids: seq<string>)
    ensures forall k :: 0 <= k < |items| ==> TagEach(items, group, ids)[k].coords == items[k].coords
    ensures forall k, t :: 0 <= k < |items| && t in items[k].tags ==> t in TagEach(items, group, ids)[k].tags
    ensures forall k, i :: 0 <= k < |items| && 0 <= i < |ids| && ids[i] in items[k].tags ==>
      group in TagEach(items, group, ids)[k].tags
    ensures forall k :: 0 <= k < |items| && (forall i :: 0 <= i < |ids| ==> ids[i] !in items[k].tags) ==>
      TagEach(items, group, ids)[k] == items[k]
    decreases |ids|
  {
    if ids != [] {
      var pre := ids[..|ids| - 1];
      TagEachSpec(items, group, pre);
      var m := TagEach(items, group, pre);
      AddTagSpec(m, group, ids[|ids| - 1]);
      forall k, i | 0 <= k < |items| && 0 <= i < |ids| && ids[i] in items[k].tags
        ensures group in TagEach(items, group, ids)[k].tags
      {
        if i < |ids| - 1 {
          assert pre[i] == ids[i];
        }
      }
      forall k | 0 <= k < |items| && (forall i :: 0 <= i < |ids| ==> ids[i] !in items[k].tags)
        ensures TagEach(items, group, ids)[k] == items[k]
      {
        assert forall i :: 0 <= i < |pre| ==> pre[i] == ids[i];
        assert m[k] == items[k];
      }
    }
  }

  /** Untagging the given shapes: an item carrying one of their ids loses
      the group tag (unless the group tag is that id itself) and keeps every
      other tag; no other item changes; no coordinates change. */
  lemma {:induction false} UntagEachSpec(items: seq<Item>, group: string, ids: seq<string>)
    requires forall i :: 0 <= i < |ids| ==> ids[i] != group
    ensures forall k :: 0 <= k < |items| ==> UntagEach(items, group, ids)[k].coords == items[k].coords
    ensures forall k, t :: 0 <= k < |items| && t in UntagEach(items, group, ids)[k].tags ==> t in items[k].tags
    ensures forall k, t :: 0 <= k < |items| && t in items[k].tags && t != group ==>
      t in UntagEach(items, group, ids)[k].tags
    ensures forall k, i :: 0 <= k < |items| && 0 <= i < |ids| && ids[i] in items[k].tags ==>
      group !in UntagEach(items, group, ids)[k].tags
    ensures forall k :: 0 <= k < |items| && (forall i :: 0 <= i < |ids| ==> ids[i] !in items[k].tags) ==>
      UntagEach(items, group, ids)[k] == items[k]
    decreases |ids|
  {
    if ids != [] {
      var pre := ids[..|ids| - 1];
      var last := ids[|ids| - 1];
      UntagEachSpec(items, group, pre);
      var m := UntagEach(items, group, pre);
      DTagSpec(m, last, group);
      assert UntagEach(items, group, ids) == DTag(m, last, group);
      forall k, i | 0 <= k < |items| && 0 <= i < |ids| && ids[i] in items[k].tags
        ensures group !in UntagEach(items, group, ids)[k].tags
      {
        if i < |ids| - 1 {
          assert pre[i] == ids[i];
        }
      }
      forall k | 0 <= k < |items| && (forall i :: 0 <= i < |ids| ==> ids[i] !in items[k].tags)
        ensures UntagEach(items, group, ids)[k] == items[k]
      {
        assert forall i :: 0 <= i < |pre| ==> pre[i] == ids[i];
        assert last !in m[k].tags;
      }
    }
  }

  // ---------------------------------------------------------------------
  // The member list.

  /** Where `g` first occurs. */
  function Position(shapes: seq<Shape>, g: Shape): (k: nat)
    requires g in shapes
    ensures k < |shapes| && shapes[k] == g && g !in shapes[..k]
  {
    if shapes[0] == g then 0
    else
      var k := 1 + Position(shapes[1..], g);
      assert shapes[..k] == [shapes[0]] + shapes[1..][..k - 1];
      k
  }

  /** `list.remove(g)` with its ValueError suppressed. */
  function RemoveFirst(shapes: seq<Shape>, g: Shape): (r: seq<Shape>)
    ensures g !in shapes ==> r == shapes
    ensures multiset(r) == multiset(shapes) - multiset{g}
    ensures forall x :: x in r ==> x in shapes
  {
    if shapes == [] then []
    else if shapes[0] == g then
      assert shapes == [g] + shapes[1..];
      shapes[1..]
    else
      var rest := shapes[1..];
      assert shapes == [shapes[0]] + rest;
      [shapes[0]] + RemoveFirst(rest, g)
  }

  /** Only the first occurrence goes; the order of the rest is kept. */
  lemma {:induction false} RemoveFirstAt(shapes: seq<Shape>, g: Shape)
    requires g in shapes
    ensures var k := Position(shapes, g);
      RemoveFirst(shapes, g) == shapes[..k] + shapes[k + 1..]
  {
    if shapes[0] != g {
      var rest := shapes[1..];
      RemoveFirstAt(rest, g);
      var k := Position(rest, g);
      assert Position(shapes, g) == k + 1;
      assert RemoveFirst(shapes, g) == [shapes[0]] + (rest[..k] + rest[k + 1..]);
      SpliceHead(shapes, k);
    }
  }

  lemma SpliceHead<T>(s: seq<T>, k: nat)
    requires k + 1 < |s|
    ensures [s[0]] + (s[1..][..k] + s[1..][k + 1..]) == s[..k + 1] + s[k + 2..]
  {
    assert s[..k + 1] == [s[0]] + s[1..][..k];
    assert s[k + 2..] == s[1..][k + 1..];
  }

  /** `remove(g)` for each shape in turn. */
  function RemoveEach(members: seq<Shape>, gs: seq<Shape>): (r: seq<Shape>)
    ensures forall x :: x in r ==> x in members
    decreases |gs|
  {
    if gs == [] then members
    else RemoveFirst(RemoveEach(members, gs[..|gs| - 1]), gs[|gs| - 1])
  }

  /** Removing shapes takes away one occurrence per request, never more. */
  lemma {:induction false} RemoveEachCount(members: seq<Shape>, gs: seq<Shape>)
    ensures multiset(RemoveEach(members, gs)) == multiset(members) - multiset(gs)
    decreases |gs|
  {
    if gs != [] {
      var pre, x := gs[..|gs| - 1], gs[|gs| - 1];
      RemoveEachCount(members, pre);
      assert gs == pre + [x];
      assert multiset(gs) == multiset(pre) + multiset{x};
      assert RemoveEach(members, gs) == RemoveFirst(RemoveEach(members, pre), x);
      MinusOneMore(multiset(members), multiset(pre), x);
    }
  }

  lemma MinusOneMore<T>(a: multiset<T>, b: multiset<T>, x: T)
    ensures a - b - multiset{x} == a - (b + multiset{x})
  {
    assert forall y :: (a - b - multiset{x})[y] == (a - (b + multiset{x}))[y];
  }

  /** A shape added twice stays a member after one removal, although its
      item no longer carries the group tag. */
  lemma DoubleMembership(members: seq<Shape>, g: Shape, items: seq<Item>, group: string)
    requires multiset(members)[g] >= 2 && g.idTag != group
    ensures g in RemoveEach(members, [g])
    ensures forall k :: 0 <= k < |items| && g.idTag in items[k].tags ==>
      group !in UntagEach(items, group, Ids([g]))[k].tags
  {
    assert [g][..0] == [];
    assert RemoveEach(members, [g]) == RemoveFirst(members, g);
    assert multiset(RemoveFirst(members, g))[g] >= 1;
    UntagEachSpec(items, group, Ids([g]));
  }

  // ---------------------------------------------------------------------
  // Transforms of the members, one after another.

  /** A map of the plane applied to every point. */
  function MapPoints(ps: seq<Point>, f: Point -> Point): (r: seq<Point>)
    ensures |r| == |ps|
    ensures forall i :: 0 <= i < |ps| ==> r[i] == f(ps[i])
  {
    seq(|ps|, i requires 0 <= i < |ps| => f(ps[i]))
  }

  /** A map of the plane applied to a flat coordinate list. */
  function MapCoords(cs: seq<real>, f: Point -> Point): (r: seq<real>)
    requires |cs| % 2 == 0
    ensures |r| == |cs|
  {
    FlatPoints(MapPoints(Pairs(cs), f))
  }

  /** The rotation `rotate` applies to every vertex. */
  function RotationOf(u: Complex, c: Point): Point -> Point {
    p => RotatePoint(p, u, c)
  }

  /** The line reflection `_reflect_across_a_line` applies to every vertex. */
  function MirrorOf(p1: Point, p2: Point): Point -> Point
    requires p1 != p2
  {
    p => ReflectAcrossLine(p, p1, p2).value
  }

  /** The vertices of the first item with `tag` rewritten by `f`. */
  function Remapped(items: seq<Item>, tag: string, f: Point -> Point): (r: seq<Item>)
    requires WholePoints(items)
    ensures WholePoints(r) && |r| == |items|
  {
    var cs := CoordsOf(items, tag);
    WholePointsKept(items, tag, MapCoords(cs, f), [], "", 0.0, 0.0, 0.0, 0.0);
    Surface.SetCoords(items, tag, MapCoords(cs, f)).value
  }

  /** The members' vertices rewritten by `f`, one member after another. */
  function RemapEach(items: seq<Item>, ids: seq<string>, f: Point -> Point): (r: seq<Item>)
    requires WholePoints(items)
    ensures WholePoints(r) && |r| == |items|
    decreases |ids|
  {
    if ids == [] then items
    else Remapped(RemapEach(items, ids[..|ids| - 1], f), ids[|ids| - 1], f)
  }

  /** Remapping touches the coordinates of the addressed item and nothing else. */
  lemma RemappedAt(items: seq<Item>, tag: string, f: Point -> Point)
    requires WholePoints(items)
    ensures First(items, tag).None? ==> Remapped(items, tag, f) == items
    ensures First(items, tag).Some? ==> var k := First(items, tag).value;
      Remapped(items, tag, f) == items[k := Item(MapCoords(items[k].coords, f), items[k].tags)]
  {
    if First(items, tag).Some? {
      var k := First(items, tag).value;
      if items[k].coords == [] {
        assert items[k := Item([], items[k].tags)] == items;
      }
    }
  }

  /** A member's `rotate` is the remapping by the rotation. */
  lemma RotatedIsRemapped(items: seq<Item>, tag: string, u: Complex, c: Point)
    requires WholePoints(items)
    ensures Rotated(items, tag, u, c) == Remapped(items, tag, RotationOf(u, c))
  {
    var ps := Pairs(CoordsOf(items, tag));
    assert MapPoints(ps, RotationOf(u, c)) == RotatePoints(ps, u, c);
  }

  /** A member's line reflection is the remapping by the mirror, when the
      two points of the line differ. */
  lemma LineReflectedIsRemapped(items: seq<Item>, tag: string, p1: Point, p2: Point)
    requires WholePoints(items) && p1 != p2
    ensures LineReflected(items, tag, p1, p2) == Ok(Remapped(items, tag, MirrorOf(p1, p2)))
  {
    var ps := Pairs(CoordsOf(items, tag));
    assert MapPoints(ps, MirrorOf(p1, p2)) == ReflectAll(ps, p1, p2);
  }

  lemma MapCoordsCommute(cs: seq<real>, f: Point -> Point, g: Point -> Point)
    requires |cs| % 2 == 0
    requires forall p :: f(g(p)) == g(f(p))
    ensures MapCoords(MapCoords(cs, f), g) == MapCoords(MapCoords(cs, g), f)
  {
    var ps := Pairs(cs);
    PairsRoundTrip(MapPoints(ps, f));
    PairsRoundTrip(MapPoints(ps, g));
    assert MapPoints(MapPoints(ps, f), g) == MapPoints(MapPoints(ps, g), f);
  }

  lemma MapCoordsUndo(cs: seq<real>, f: Point -> Point, g: Point -> Point)
    requires |cs| % 2 == 0
    requires forall p :: g(f(p)) == p
    ensures MapCoords(MapCoords(cs, f), g) == cs
  {
    var ps := Pairs(cs);
    PairsRoundTrip(MapPoints(ps, f));
    assert MapPoints(MapPoints(ps, f), g) == ps;
    FlatPointsRoundTrip(cs);
  }

  /** Two remappings in a row, written out on the items they address. */
  lemma RemapTwice(items: seq<Item>, a: string, b: string, f: Point -> Point, g: Point -> Point)
    requires WholePoints(items)
    ensures First(items, a).None? ==> Remapped(Remapped(items, a, f), b, g) == Remapped(items, b, g)
    ensures First(items, a).Some? && First(items, b).None? ==>
      Remapped(Remapped(items, a, f), b, g) == Remapped(items, a, f)
    ensures First(items, a).Some? && First(items, b).Some? ==>
      var ka, kb := First(items, a).value, First(items, b).value;
      var fa := Item(MapCoords(items[ka].coords, f), items[ka].tags);
      var gb := Item(MapCoords(items[kb].coords, g), items[kb].tags);
      && (ka == kb ==> Remapped(Remapped(items, a, f), b, g)
                         == items[ka := Item(MapCoords(MapCoords(items[ka].coords, f), g), items[ka].tags)])
      && (ka != kb ==> Remapped(Remapped(items, a, f), b, g) == items[ka := fa][kb := gb])
  {
    var fa := Remapped(items, a, f);
    RemappedAt(items, a, f);
    FirstSameTags(items, fa, b);
    RemappedAt(fa, b, g);
    RemappedAt(items, b, g);
  }

  /** Remapping two members by commuting maps can be done in either order,
      even when both ids address the same item. */
  lemma RemapCommute(items: seq<Item>, a: string, b: string, f: Point -> Point, g: Point -> Point)
    requires WholePoints(items)
    requires forall p :: f(g(p)) == g(f(p))
    ensures Remapped(Remapped(items, a, f), b, g) == Remapped(Remapped(items, b, g), a, f)
  {
    RemapTwice(items, a, b, f, g);
    RemapTwice(items, b, a, g, f);
    if First(items, a).None? && First(items, b).None? {
      RemappedAt(items, a, f);
      RemappedAt(items, b, g);
    } else if First(items, a).Some? && First(items, b).Some? {
      var ka, kb := First(items, a).value, First(items, b).value;
      if ka == kb {
        MapCoordsCommute(items[ka].coords, f, g);
      } else {
        var fa := Item(MapCoords(items[ka].coords, f), items[ka].tags);
        var gb := Item(MapCoords(items[kb].coords, g), items[kb].tags);
        assert items[ka := fa][kb := gb] == items[kb := gb][ka := fa];
      }
    }
  }

  /** Remapping by `f` and then by its inverse restores the canvas. */
  lemma RemapUndo(items: seq<Item>, tag: string, f: Point -> Point, g: Point -> Point)
    requires WholePoints(items)
    requires forall p :: g(f(p)) == p
    ensures Remapped(Remapped(items, tag, f), tag, g) == items
  {
    var once := Remapped(items, tag, f);
    RemappedAt(items, tag, f);
    FirstSameTags(items, once, tag);
    RemappedAt(once, tag, g);
    if First(items, tag).Some? {
      var k := First(items, tag).value;
      MapCoordsUndo(items[k].coords, f, g);
      assert once[k := Item(MapCoords(once[k].coords, g), once[k].tags)] == items;
    }
  }

  /** One remapping commutes with a whole pass of another. */
  lemma {:induction false} RemapThrough(items: seq<Item>, ids: seq<string>, x: string,
                                         f: Point -> Point, g: Point -> Point)
    requires WholePoints(items)
    requires forall p :: f(g(p)) == g(f(p))
    ensures RemapEach(Remapped(items, x, f), ids, g) == Remapped(RemapEach(items, ids, g), x, f)
    decreases |ids|
  {
    if ids != [] {
      var pre := ids[..|ids| - 1];
      RemapThrough(items, pre, x, f, g);
      RemapCommute(RemapEach(items, pre, g), x, ids[|ids| - 1], f, g);
    }
  }

  /** A pass over the members by `f` followed by a pass by its inverse
      restores the canvas, members listed twice included, whenever `f`
      and its inverse commute. */
  lemma {:induction false} RemapEachRoundTrip(items: seq<Item>, ids: seq<string>,
                                               f: Point -> Point, g: Point -> Point)
    requires WholePoints(items)
    requires forall p :: g(f(p)) == p
    requires forall p :: f(g(p)) == g(f(p))
    ensures RemapEach(RemapEach(items, ids, f), ids, g) == items
    decreases |ids|
  {
    if ids != [] {
      var pre := ids[..|ids| - 1];
      var x := ids[|ids| - 1];
      var before := RemapEach(items, pre, f);
      RemapThrough(before, pre, x, f, g);
      RemapEachRoundTrip(items, pre, f, g);
      RemapUndo(items, x, f, g);
    }
  }

  /** `group.rotate(angle)` followed by `group.rotate(-angle)` about the same
      centre restores the canvas, for exact trigonometry. */
  lemma GroupRotateBack(items: seq<Item>, ids: seq<string>, angle: real, c: Point, inDegrees: bool,
                        lib: Library)
    requires WholePoints(items) && Exact(lib)
    ensures var there := RemapEach(items, ids, RotationOf(lib.cis(Turning(angle, inDegrees)), c));
      RemapEach(there, ids, RotationOf(lib.cis(Turning(-angle, inDegrees)), c)) == items
  {
    var u := lib.cis(Turning(angle, inDegrees));
    var v := lib.cis(Turning(-angle, inDegrees));
    RadiansOpposite(angle, inDegrees);
    assert Mul(u, v) == Complex(1.0, 0.0);
    assert NormSq(u) == 1.0;
    UnitInverse(u, v);
    var f, g := RotationOf(u, c), RotationOf(v, c);
    forall p ensures g(f(p)) == p {
      RotateRoundTrip(p, u, c);
    }
    forall p ensures f(g(p)) == g(f(p)) {
      RotateCompose(p, u, v, c);
      RotateCompose(p, v, u, c);
      MulCommutes(u, v);
    }
    RemapEachRoundTrip(items, ids, f, g);
  }

  /** Reflecting a group twice across the same point restores the canvas. */
  lemma GroupPointReflectedTwice(items: seq<Item>, ids: seq<string>, c: Point, lib: Library)
    requires WholePoints(items) && Exact(lib)
    ensures var f := RotationOf(lib.cis(Pi), c);
      RemapEach(RemapEach(items, ids, f), ids, f) == items
  {
    var f := RotationOf(lib.cis(Pi), c);
    forall p ensures f(f(p)) == p {
      PointReflectionInvolution(p, c);
    }
    RemapEachRoundTrip(items, ids, f, f);
  }

  /** Reflecting a group twice across the same line restores the canvas. */
  lemma GroupLineReflectedTwice(items: seq<Item>, ids: seq<string>, p1: Point, p2: Point)
    requires WholePoints(items) && p1 != p2
    ensures var f := MirrorOf(p1, p2);
      RemapEach(RemapEach(items, ids, f), ids, f) == items
  {
    var f := MirrorOf(p1, p2);
    forall p ensures f(f(p)) == p {
      ReflectAcrossLineInvolution(p, p1, p2);
    }
    RemapEachRoundTrip(items, ids, f, f);
  }

  /** A member listed twice is reflected twice, so one reflection of the
      group across a point leaves it where it was. */
  lemma DuplicateReflectedBack(items: seq<Item>, id: string, c: Point, lib: Library)
    requires WholePoints(items) && Exact(lib)
    ensures RemapEach(items, [id, id], RotationOf(lib.cis(Pi), c)) == items
  {
    var f := RotationOf(lib.cis(Pi), c);
    forall p ensures f(f(p)) == p {
      PointReflectionInvolution(p, c);
    }
    assert [id][..0] == [];
    assert RemapEach(items, [id], f) == Remapped(items, id, f);
    assert [id, id][..1] == [id];
    assert RemapEach(items, [id, id], f) == Remapped(Remapped(items, id, f), id, f);
    RemapUndo(items, id, f, f);
  }

  /** `reflect` on each member in turn, stopping at the first exception. */
  function ReflectEach(items: seq<Item>, ids: seq<string>, args: seq<Coord>, lib: Library): (r: (seq<Item>, Outcome))
    requires WholePoints(items)
    ensures WholePoints(r.0) && |r.0| == |items|
    decreases |ids|
  {
    if ids == [] then (items, Pass)
    else
      var before := ReflectEach(items, ids[..|ids| - 1], args, lib);
      if before.1.Fail? then before
      else match Reflected(before.0, ids[|ids| - 1], args, lib)
        case Err(e) => (before.0, Fail(e))
        case Ok(after) => (after, Pass)
  }

  /** The dispatch of `group.reflect`: non-numbers fail at the first member;
      two numbers reflect every member across the point, four across the
      line; any other count changes nothing. */
  lemma {:induction false} ReflectEachDispatch(items: seq<Item>, ids: seq<string>, args: seq<Coord>, lib: Library)
    requires WholePoints(items)
    ensures ids == [] ==> ReflectEach(items, ids, args, lib) == (items, Pass)
    ensures Flatten(args).Err? && ids != [] ==> ReflectEach(items, ids, args, lib) == (items, Fail(TypeError))
    ensures Flatten(args).Ok? ==> var xy := Flatten(args).value;
      && (|xy| == 2 ==> ReflectEach(items, ids, args, lib) == (RemapEach(items, ids, RotationOf(lib.cis(Pi), (xy[0], xy[1]))), Pass))
      && (|xy| == 4 && (xy[0], xy[1]) != (xy[2], xy[3]) ==>
            ReflectEach(items, ids, args, lib) == (RemapEach(items, ids, MirrorOf((xy[0], xy[1]), (xy[2], xy[3]))), Pass))
      && (|xy| != 2 && |xy| != 4 ==> ReflectEach(items, ids, args, lib) == (items, Pass))
    decreases |ids|
  {
    if ids != [] {
      var pre := ids[..|ids| - 1];
      var x := ids[|ids| - 1];
      ReflectEachDispatch(items, pre, args, lib);
      var before := ReflectEach(items, pre, args, lib);
      ReflectDispatch(before.0, x, args, lib);
      if Flatten(args).Ok? {
        var xy := Flatten(args).value;
        if |xy| == 2 {
          RotatedIsRemapped(before.0, x, lib.cis(Pi), (xy[0], xy[1]));
        } else if |xy| == 4 && (xy[0], xy[1]) != (xy[2], xy[3]) {
          LineReflectedIsRemapped(before.0, x, (xy[0], xy[1]), (xy[2], xy[3]));
        }
      }
    }
  }

  /** A line through two equal points: no member moves, and the group
      fails with ZeroDivisionError exactly when some member has vertices. */
  lemma {:induction false} ReflectEachDegenerate(items: seq<Item>, ids: seq<string>, p: Point, lib: Library)
    requires WholePoints(items)
    ensures var r := ReflectEach(items, ids, Nums([p.0, p.1, p.0, p.1]), lib);
      && r.0 == items
      && (r.1.Pass? <==> forall i :: 0 <= i < |ids| ==> CoordsOf(items, ids[i]) == [])
      && (r.1.Fail? ==> r.1.error == ZeroDivisionError)
    decreases |ids|
  {
    var args := Nums([p.0, p.1, p.0, p.1]);
    FlattenFlat([p.0, p.1, p.0, p.1]);
    if ids != [] {
      var pre := ids[..|ids| - 1];
      ReflectEachDegenerate(items, pre, p, lib);
      assert forall i :: 0 <= i < |pre| ==> pre[i] == ids[i];
    }
  }

  // ---------------------------------------------------------------------
  // Cloning the members.

  /** The canvas items and the counter after cloning members, with the id
      tags of the clones or the first error. */
  datatype Clones = Clones(items: seq<Item>, next: nat, made: Result<seq<string>>)

  /** One member's `clone()` on a canvas state, as a function of that state. */
  type CloneStepFn = (seq<Item>, nat, Kind, string) -> Cloning.Step

  /** The step of `clone()` for a given library and angle function. */
  function CloneStepOf(lib: Library, atan2: (real, real) -> real): (step: CloneStepFn)
    ensures IsClone(step, lib, atan2)
  {
    (items: seq<Item>, next: nat, kind: Kind, id: string) => Cloning.Cloned(items, next, kind, id, lib, atan2)
  }

  /** `step` is `clone()` on every state. */
  ghost predicate IsClone(step: CloneStepFn, lib: Library, atan2: (real, real) -> real)
  {
    forall items, next, kind, id {:trigger step(items, next, kind, id)} ::
      step(items, next, kind, id) == Cloning.Cloned(items, next, kind, id, lib, atan2)
  }

  /** `[g.clone() for g in graphics_objects]`, stopping at the first exception,
      with `step` cloning one member. */
  function CloneEach(items: seq<Item>, next: nat, shapes: seq<Shape>, step: CloneStepFn): (s: Clones)
    ensures s.made.Ok? ==> |s.made.value| == |shapes|
    decreases |shapes|
  {
    if shapes == [] then Clones(items, next, Ok([]))
    else
      var before := CloneEach(items, next, shapes[..|shapes| - 1], step);
      if before.made.Err? then before
      else
        var last := shapes[|shapes| - 1];
        var s := step(before.items, before.next, last.kind, last.idTag);
        if s.made.Err? then Clones(s.items, s.next, Err(s.made.error))
        else Clones(s.items, s.next, Ok(before.made.value + [s.made.value]))
  }

  /** The `i`-th clone of a comprehension over `shapes`, after the first `i`
      have given `clones`. */
  method CloneStep(shapes: seq<Shape>, i: nat, clones: seq<Shape>, canvas: Canvas, counter: IdCounter, lib: Library,
                   atan2: (real, real) -> real, ghost step: CloneStepFn, ghost items0: seq<Item>,
                   ghost next0: nat) returns (c: Result<Shape>)
    requires IsClone(step, lib, atan2)
    requires i < |shapes| && shapes[i].canvas == canvas && Cloning.Constructible(shapes[i].kind)
    requires var s := CloneEach(items0, next0, shapes[..i], step);
      s.made.Ok? && canvas.items == s.items && counter.next == s.next && Ids(clones) == s.made.value
    modifies canvas, counter
    ensures var s := CloneEach(items0, next0, shapes[..i + 1], step);
      && canvas.items == s.items && counter.next == s.next
      && (c.Err? <==> s.made.Err?)
      && (c.Err? ==> c.error == s.made.error)
      && (c.Ok? ==> Ids(clones + [c.value]) == s.made.value)
    ensures c.Err? ==> CloneEach(items0, next0, shapes, step) == CloneEach(items0, next0, shapes[..i + 1], step)
    ensures c.Ok? ==> fresh(c.value) && c.value.canvas == canvas
  {
    CloneEachNext(items0, next0, shapes, i, step);
    ghost var before := CloneEach(items0, next0, shapes[..i], step);
    assert step(before.items, before.next, shapes[i].kind, shapes[i].idTag)
      == Cloning.Cloned(before.items, before.next, shapes[i].kind, shapes[i].idTag, lib, atan2);
    c := Cloning.Clone(shapes[i], counter, lib, atan2);
    if c.Err? {
      CloneEachStops(items0, next0, shapes, i + 1, step);
    } else {
      IdsAppend(clones, c.value);
    }
  }

  /** One more shape: `CloneEach` of the next prefix from that of the last. */
  lemma CloneEachNext(items: seq<Item>, next: nat, shapes: seq<Shape>, i: nat, step: CloneStepFn)
    requires i < |shapes| && CloneEach(items, next, shapes[..i], step).made.Ok?
    ensures var before := CloneEach(items, next, shapes[..i], step);
      var s := step(before.items, before.next, shapes[i].kind, shapes[i].idTag);
      CloneEach(items, next, shapes[..i + 1], step)
        == if s.made.Err? then Clones(s.items, s.next, Err(s.made.error))
           else Clones(s.items, s.next, Ok(before.made.value + [s.made.value]))
  {
    assert shapes[..i + 1][..i] == shapes[..i];
  }

  lemma {:induction false} CloneEachStops(items: seq<Item>, next: nat, shapes: seq<Shape>, n: nat,
                                          step: CloneStepFn)
    requires n <= |shapes| && CloneEach(items, next, shapes[..n], step).made.Err?
    ensures CloneEach(items, next, shapes, step) == CloneEach(items, next, shapes[..n], step)
    decreases |shapes|
  {
    if n < |shapes| {
      var pre := shapes[..|shapes| - 1];
      assert pre[..n] == shapes[..n];
      CloneEachStops(items, next, pre, n, step);
    } else {
      assert shapes[..n] == shapes;
    }
  }

  /** A clone keeps the original's tags, the group tags among them, so the
      clone of a member answers to the original group's tag too. */
  lemma CloneJoinsGroups(items: seq<Item>, next: nat, kind: Kind, id: string, group: string,
                         lib: Library, atan2: (real, real) -> real)
    requires Cloning.Constructible(kind) && WholePoints(items)
    requires First(items, id).Some? && AllTags(TagsOf(items, id))
    requires Cloning.Unused(items, Id(kind.Class().Name(), next))
    requires Cloning.Unused(items, Id(Ellipse.Name(), next)) && Cloning.Unused(items, Id(Circle.Name(), next + 1))
    requires group in TagsOf(items, id) && group != id
    ensures var s := Cloning.Cloned(items, next, kind, id, lib, atan2);
      s.made.Ok? ==> group in s.items[|items|].tags && id !in s.items[|items|].tags
  {
    Cloning.CloneCopies(items, next, kind, id, lib, atan2);
    var s := Cloning.Cloned(items, next, kind, id, lib, atan2);
    if s.made.Ok? {
      var ts := Without(TagsOf(items, id), id);
      assert group in ts;
      assert s.items[|items|].tags == ts + [s.made.value];
      assert s.made.value != id by {
        assert s.made.value == Cloning.Factory(items, next, kind, id, lib, atan2).made.value;
        Cloning.FactoryAppends(items, next, kind, id, lib, atan2);
        assert s.made.value in s.items[|items|].tags;
        assert id in items[First(items, id).value].tags;
      }
    }
  }

  lemma RemoveStep(members: seq<Shape>, gs: seq<Shape>, i: nat)
    requires i < |gs|
    ensures RemoveEach(members, gs[..i + 1]) == RemoveFirst(RemoveEach(members, gs[..i]), gs[i])
  {
    assert gs[..i + 1][..i] == gs[..i];
  }

  lemma UntagStep(items: seq<Item>, group: string, ids: seq<string>, i: nat)
    requires i < |ids|
    ensures UntagEach(items, group, ids[..i + 1]) == GuardedDTag(UntagEach(items, group, ids[..i]), ids[i], group)
  {
    assert ids[..i + 1][..i] == ids[..i];
  }

  // ---------------------------------------------------------------------
  // The group object.

  /** A group: its own id tag and the ordered list of its members, all
      drawn on one canvas. */
  class Group {
    const canvas: Canvas
    const idTag: string
    var members: seq<Shape>

    /** Every member is drawn on the group's canvas. */
    predicate Valid()
      reads this
    {
      forall i :: 0 <= i < |members| ==> members[i].canvas == canvas
    }

    /** `Group(*shapes)`: the next group number names the group, then the
        shapes are added. */
    constructor (canvas: Canvas, counter: IdCounter, shapes: seq<Shape>)
      requires forall i :: 0 <= i < |shapes| ==> shapes[i].canvas == canvas
      modifies canvas, counter
      ensures this.canvas == canvas && Valid() && members == shapes
      ensures idTag == Id(GroupName, old(counter.next)) && counter.next == old(counter.next) + 1
      ensures canvas.items == TagEach(old(canvas.items), idTag, Ids(shapes))
    {
      var n := counter.Take();
      this.canvas := canvas;
      idTag := Id(GroupName, n);
      members := [];
      new;
      AddGraphics(shapes);
    }

    /** `g in group`. */
    predicate Contains(g: Shape)
      reads this
    {
      g in members
    }

    /** `add_graphics(*shapes)`: the shapes are appended, duplicates kept,
        and then every member, old and new, is tagged with the group tag. */
    method AddGraphics(shapes: seq<Shape>)
      requires Valid() && forall i :: 0 <= i < |shapes| ==> shapes[i].canvas == canvas
      modifies this, canvas
      ensures Valid() && members == old(members) + shapes
      ensures canvas.items == TagEach(old(canvas.items), idTag, Ids(members))
    {
      members := members + shapes;
      ghost var start := canvas.items;
      var i := 0;
      while i < |members|
        invariant 0 <= i <= |members| && members == old(members) + shapes && Valid()
        invariant canvas.items == TagEach(start, idTag, Ids(members)[..i])
      {
        assert Ids(members)[..i + 1][..i] == Ids(members)[..i];
        members[i].AddTag(idTag);
        i := i + 1;
      }
      assert Ids(members)[..|members|] == Ids(members);
    }

    /** `remove_graphics(*shapes)`: each shape loses the group tag and its
        first occurrence in the list; a non-member changes nothing in the list. */
    method RemoveGraphics(shapes: seq<Shape>)
      requires Valid() && forall i :: 0 <= i < |shapes| ==> shapes[i].canvas == canvas
      modifies this, canvas
      ensures Valid() && members == RemoveEach(old(members), shapes)
      ensures canvas.items == UntagEach(old(canvas.items), idTag, Ids(shapes))
    {
      ghost var members0, items0, ids := members, canvas.items, Ids(shapes);
      var i := 0;
      while i < |shapes|
        invariant 0 <= i <= |shapes| && Valid()
        invariant members == RemoveEach(members0, shapes[..i])
        invariant canvas.items == UntagEach(items0, idTag, ids[..i])
      {
        RemoveOne(shapes[i]);
        RemoveStep(members0, shapes, i);
        UntagStep(items0, idTag, ids, i);
        i := i + 1;
      }
      assert shapes[..|shapes|] == shapes;
      assert ids[..|shapes|] == ids;
    }

    /** One round of `remove_graphics`: the tag goes, then the first occurrence. */
    method RemoveOne(g: Shape)
      requires Valid() && g.canvas == canvas
      modifies this, canvas
      ensures Valid() && members == RemoveFirst(old(members), g)
      ensures canvas.items == GuardedDTag(old(canvas.items), g.idTag, idTag)
    {
      g.DTag(idTag);
      ghost var before := members;
      members := RemoveFirst(members, g);
      forall j | 0 <= j < |members| ensures members[j].canvas == canvas {
        assert members[j] in before;
      }
    }

    /** `_get_canvas()`: the first member's canvas; an empty group has none. */
    function GetCanvas(): (r: Result<Canvas>)
      reads this
      ensures r.Err? <==> members == []
      ensures r.Err? ==> r.error == ValueError
      ensures r.Ok? && Valid() ==> r.value == canvas
    {
      if members == [] then Err(ValueError) else Ok(members[0].canvas)
    }

    /** `bbox()`: the box around every item carrying the group tag. */
    function Bbox(): (r: Result<Option<Box>>)
      requires Valid()
      reads this, canvas
      ensures r.Err? <==> members == []
      ensures r.Err? ==> r.error == ValueError
      ensures r.Ok? ==> r.value == Surface.Bbox(canvas.items, idTag)
    {
      var c :- GetCanvas();
      Ok(c.BboxOf(idTag))
    }

    /** `bbox_center()`: unpacking an absent box is a TypeError. */
    function BboxCenter(): (r: Result<Point>)
      requires Valid()
      reads this, canvas
      ensures members == [] ==> r == Err(ValueError)
      ensures members != [] ==> r == BoxCenter(Surface.Bbox(canvas.items, idTag))
    {
      var b :- Bbox();
      BoxCenter(b)
    }

    /** `move(dx, dy)`: every item carrying the group tag moves. */
    method Move(dx: real, dy: real) returns (o: Outcome)
      requires Valid()
      modifies canvas
      ensures members == [] ==> o == Fail(ValueError) && canvas.items == old(canvas.items)
      ensures members != [] ==> o == Pass && canvas.items == Surface.Move(old(canvas.items), idTag, dx, dy)
    {
      var c := GetCanvas();
      if c.Err? {
        return Fail(c.error);
      }
      c.value.MoveItems(idTag, dx, dy);
      return Pass;
    }

    /** `scale(x0, y0, sx, sy)`: every item carrying the group tag is stretched. */
    method Scale(x0: real, y0: real, sx: real, sy: real) returns (o: Outcome)
      requires Valid()
      modifies canvas
      ensures members == [] ==> o == Fail(ValueError) && canvas.items == old(canvas.items)
      ensures members != [] ==> o == Pass && canvas.items == Surface.Scale(old(canvas.items), idTag, x0, y0, sx, sy)
    {
      var c := GetCanvas();
      if c.Err? {
        return Fail(c.error);
      }
      c.value.ScaleItems(idTag, x0, y0, sx, sy);
      return Pass;
    }

    /** `rotate(angle, center, in_degrees)`: each member in list order. */
    method Rotate(angle: real, center: Point, inDegrees: bool, lib: Library)
      requires Valid() && WholePoints(canvas.items)
      modifies canvas
      ensures canvas.items == RemapEach(old(canvas.items), Ids(members), RotationOf(lib.cis(Turning(angle, inDegrees)), center))
    {
      var f := RotationOf(lib.cis(Turning(angle, inDegrees)), center);
      var i := 0;
      while i < |members|
        invariant 0 <= i <= |members|
        invariant WholePoints(old(canvas.items))
        invariant canvas.items == RemapEach(old(canvas.items), Ids(members)[..i], f)
      {
        assert Ids(members)[..i + 1][..i] == Ids(members)[..i];
        RotatedIsRemapped(canvas.items, members[i].idTag, lib.cis(Turning(angle, inDegrees)), center);
        members[i].Rotate(angle, center, inDegrees, lib);
        i := i + 1;
      }
      assert Ids(members)[..|members|] == Ids(members);
    }

    /** `reflect(*one_or_two_points)`: each member in list order; the first
        exception stops the loop with the earlier members already reflected. */
    method Reflect(args: seq<Coord>, lib: Library) returns (o: Outcome)
      requires Valid() && WholePoints(canvas.items)
      modifies canvas
      ensures var r := ReflectEach(old(canvas.items), Ids(members), args, lib);
        canvas.items == r.0 && o == r.1
    {
      var i := 0;
      while i < |members|
        invariant 0 <= i <= |members|
        invariant WholePoints(old(canvas.items))
        invariant (canvas.items, Pass) == ReflectEach(old(canvas.items), Ids(members)[..i], args, lib)
      {
        ghost var ids := Ids(members)[..i + 1];
        assert ids[..i] == Ids(members)[..i];
        o := members[i].Reflect(args, lib);
        if o.Fail? {
          ReflectEachStops(old(canvas.items), Ids(members), i + 1, args, lib);
          return;
        }
        i := i + 1;
      }
      assert Ids(members)[..|members|] == Ids(members);
      return Pass;
    }

    /** `clone()`: a new group of the members' clones, numbered after them. */
    method Clone(counter: IdCounter, groups: IdCounter, lib: Library, atan2: (real, real) -> real)
      returns (r: Result<Group>)
      requires Valid() && counter != groups
      requires forall i :: 0 <= i < |members| ==> Cloning.Constructible(members[i].kind)
      modifies canvas, counter, groups
      ensures var s := CloneEach(old(canvas.items), old(counter.next), members, CloneStepOf(lib, atan2));
        && counter.next == s.next
        && (r.Err? <==> s.made.Err?)
        && (r.Err? ==> r.error == s.made.error && canvas.items == s.items && groups.next == old(groups.next))
        && (r.Ok? ==> && Ids(r.value.members) == s.made.value
                      && r.value.idTag == Id(GroupName, old(groups.next))
                      && groups.next == old(groups.next) + 1
                      && canvas.items == TagEach(s.items, r.value.idTag, s.made.value))
      ensures r.Ok? ==> fresh(r.value) && r.value.canvas == canvas && r.value.Valid()
    {
      var clones := CloneAll(members, canvas, counter, lib, atan2, CloneStepOf(lib, atan2));
      if clones.Err? {
        return Err(clones.error);
      }
      var g := new Group(canvas, groups, clones.value);
      return Ok(g);
    }
  }

  /** The list comprehension of `clone()`: every shape cloned in order,
      stopping at the first exception. */
  method CloneAll(shapes: seq<Shape>, canvas: Canvas, counter: IdCounter, lib: Library,
                  atan2: (real, real) -> real, ghost step: CloneStepFn) returns (r: Result<seq<Shape>>)
    requires IsClone(step, lib, atan2)
    requires forall i :: 0 <= i < |shapes| ==> shapes[i].canvas == canvas && Cloning.Constructible(shapes[i].kind)
    modifies canvas, counter
    ensures var s := CloneEach(old(canvas.items), old(counter.next), shapes, step);
      && counter.next == s.next && canvas.items == s.items
      && (r.Err? <==> s.made.Err?)
      && (r.Err? ==> r.error == s.made.error)
      && (r.Ok? ==> Ids(r.value) == s.made.value)
    ensures r.Ok? ==> forall j :: 0 <= j < |r.value| ==> r.value[j].canvas == canvas
  {
    ghost var items0, next0 := canvas.items, counter.next;
    var clones: seq<Shape> := [];
    var i := 0;
    while i < |shapes|
      invariant 0 <= i <= |shapes|
      invariant var s := CloneEach(items0, next0, shapes[..i], step);
        && s.made.Ok? && canvas.items == s.items && counter.next == s.next && Ids(clones) == s.made.value
      invariant forall j :: 0 <= j < |clones| ==> clones[j].canvas == canvas
    {
      var c := CloneStep(shapes, i, clones, canvas, counter, lib, atan2, step, items0, next0);
      if c.Err? {
        return Err(c.error);
      }
      clones := clones + [c.value];
      i := i + 1;
    }
    assert shapes[..|shapes|] == shapes;
    return Ok(clones);
  }

  lemma {:induction false} ReflectEachStops(items: seq<Item>, ids: seq<string>, n: nat, args: seq<Coord>,
                                            lib: Library)
    requires WholePoints(items)
    requires n <= |ids| && ReflectEach(items, ids[..n], args, lib).1.Fail?
    ensures ReflectEach(items, ids, args, lib) == ReflectEach(items, ids[..n], args, lib)
    decreases |ids|
  {
    if n < |ids| {
      var pre := ids[..|ids| - 1];
      assert pre[..n] == ids[..n];
      ReflectEachStops(items, pre, n, args, lib);
    } else {
      assert ids[..n] == ids;
    }
  }

  /** Once tagged, every member moves with the group. */
  lemma GroupMoveReachesMembers(items: seq<Item>, group: string, ids: seq<string>, dx: real, dy: real,
                                k: nat, i: nat)
    requires k < |items| && i < |ids| && ids[i] in items[k].tags
    ensures Surface.Move(TagEach(items, group, ids), group, dx, dy)[k].coords == Translate(items[k].coords, dx, dy)
  {
    TagEachSpec(items, group, ids);
  }
}
