/** The drawing surface: a Tk canvas reduced to its polygon items, each a
    flat coordinate list and an ordered list of tags. Items are addressed by
    tag; the canvas keeps them in creation order. */
module Surface {
  import opened Outcomes
  import opened Coordinates

  datatype Item = Item(coords: seq<real>, tags: seq<string>)

  /** Every item holds whole points: the canvas refuses odd coordinate counts. */
  predicate WholePoints(items: seq<Item>) {
    forall i :: 0 <= i < |items| ==> |items[i].coords| % 2 == 0
  }

  /** The first item carrying `tag`: the one `coords` and `gettags` address. */
  function First(items: seq<Item>, tag: string): (r: Option<nat>)
    ensures r.Some? ==> r.value < |items| && tag in items[r.value].tags
    ensures r.Some? ==> forall j :: 0 <= j < r.value ==> tag !in items[j].tags
    ensures r.None? ==> forall j :: 0 <= j < |items| ==> tag !in items[j].tags
  {
    if items == [] then None
    else if tag in items[0].tags then Some(0)
    else match First(items[1..], tag)
      case None => None
      case Some(i) => Some(i + 1)
  }

  /** `canvas.coords(tag)`: the coordinates of the first item with `tag`, or none. */
  function CoordsOf(items: seq<Item>, tag: string): seq<real> {
    match First(items, tag)
    case None => []
    case Some(i) => items[i].coords
  }

  /** `canvas.gettags(tag)`. */
  function TagsOf(items: seq<Item>, tag: string): seq<string> {
    match First(items, tag)
    case None => []
    case Some(i) => items[i].tags
  }

  /** `canvas.coords(tag, *cs)`: replaces the coordinates of the first item
      with `tag`. No coordinates is a query; an odd number is refused. */
  function SetCoords(items: seq<Item>, tag: string, cs: seq<real>): (r: Result<seq<Item>>)
    ensures r.Err? <==> First(items, tag).Some? && cs != [] && |cs| % 2 != 0
    ensures r.Err? ==> r.error == TclError
    ensures r.Ok? ==> |r.value| == |items|
  {
    match First(items, tag)
    case None => Ok(items)
    case Some(i) =>
      if cs == [] then Ok(items)
      else if |cs| % 2 != 0 then Err(TclError)
      else Ok(items[i := items[i].(coords := cs)])
  }

  /** `canvas.create_polygon(*cs, tags=ts)`. */
  function Create(items: seq<Item>, cs: seq<real>, ts: seq<string>): (r: Result<seq<Item>>)
    ensures r.Err? <==> |cs| % 2 != 0
    ensures r.Err? ==> r.error == TclError
    ensures r.Ok? ==> r.value == items + [Item(cs, ts)]
  {
    if |cs| % 2 != 0 then Err(TclError) else Ok(items + [Item(cs, ts)])
  }

  /** Applies `f` to every item carrying `tag`. */
  function ForTagged(items: seq<Item>, tag: string, f: Item -> Item): (r: seq<Item>)
    ensures |r| == |items|
    ensures forall i :: 0 <= i < |items| ==> r[i] == if tag in items[i].tags then f(items[i]) else items[i]
  {
    seq(|items|, i requires 0 <= i < |items| => if tag in items[i].tags then f(items[i]) else items[i])
  }

  /** `canvas.addtag_withtag(newTag, withTag)`: a tag is never listed twice. */
  function AddTag(items: seq<Item>, newTag: string, withTag: string): seq<Item> {
    ForTagged(items, withTag, (it: Item) => if newTag in it.tags then it else it.(tags := it.tags + [newTag]))
  }

  /** The tags without any occurrence of `t`. */
  function Without(ts: seq<string>, t: string): (r: seq<string>)
    ensures t !in r
    ensures forall u :: u in ts && u != t ==> u in r
    ensures forall u :: u in r ==> u in ts
    ensures t !in ts ==> r == ts
  {
    if ts == [] then []
    else if ts[0] == t then Without(ts[1..], t)
    else [ts[0]] + Without(ts[1..], t)
  }

  /** `canvas.dtag(withTag, tagToDelete)`. */
  function DTag(items: seq<Item>, withTag: string, tagToDelete: string): seq<Item> {
    ForTagged(items, withTag, (it: Item) => it.(tags := Without(it.tags, tagToDelete)))
  }

  /** `canvas.itemconfig(withTag, tags=ts)`. */
  function Retag(items: seq<Item>, withTag: string, ts: seq<string>): seq<Item> {
    ForTagged(items, withTag, (it: Item) => it.(tags := ts))
  }

  /** `canvas.move(tag, dx, dy)`. */
  function Move(items: seq<Item>, tag: string, dx: real, dy: real): seq<Item> {
    ForTagged(items, tag, (it: Item) => it.(coords := Translate(it.coords, dx, dy)))
  }

  /** One coordinate scaled by `s` about `c`. */
  function Toward(c: real, s: real, x: real): real {
    c + s * (x - c)
  }

  /** Every `x` scaled by `sx` about `x0` and every `y` by `sy` about `y0`. */
  function Stretch(xs: seq<real>, x0: real, y0: real, sx: real, sy: real): (r: seq<real>)
    ensures |r| == |xs|
    ensures forall i :: 0 <= i < |xs| ==> r[i] == if i % 2 == 0 then Toward(x0, sx, xs[i]) else Toward(y0, sy, xs[i])
  {
    seq(|xs|, i requires 0 <= i < |xs| => if i % 2 == 0 then Toward(x0, sx, xs[i]) else Toward(y0, sy, xs[i]))
  }

  /** `canvas.scale(tag, x0, y0, sx, sy)`. */
  function Scale(items: seq<Item>, tag: string, x0: real, y0: real, sx: real, sy: real): seq<Item> {
    ForTagged(items, tag, (it: Item) => it.(coords := Stretch(it.coords, x0, y0, sx, sy)))
  }

  /** The coordinates of every item carrying `tag`, one item after another. */
  function TaggedCoords(items: seq<Item>, tag: string): seq<real> {
    if items == [] then []
    else (if tag in items[0].tags then items[0].coords else []) + TaggedCoords(items[1..], tag)
  }

  function Min(s: seq<real>): (m: real)
    requires s != []
    ensures forall i :: 0 <= i < |s| ==> m <= s[i]
  {
    if |s| == 1 then s[0] else var m := Min(s[1..]); if s[0] <= m then s[0] else m
  }

  /** The least entry is one of the entries. */
  lemma {:induction false} MinIn(s: seq<real>) returns (k: nat)
    requires s != []
    ensures k < |s| && s[k] == Min(s)
  {
    if |s| == 1 {
      k := 0;
    } else if s[0] <= Min(s[1..]) {
      k := 0;
    } else {
      var j := MinIn(s[1..]);
      k := j + 1;
    }
  }

  function Max(s: seq<real>): (m: real)
    requires s != []
    ensures forall i :: 0 <= i < |s| ==> s[i] <= m
  {
    if |s| == 1 then s[0] else var m := Max(s[1..]); if m <= s[0] then s[0] else m
  }

  /** The greatest entry is one of the entries. */
  lemma {:induction false} MaxIn(s: seq<real>) returns (k: nat)
    requires s != []
    ensures k < |s| && s[k] == Max(s)
  {
    if |s| == 1 {
      k := 0;
    } else if Max(s[1..]) <= s[0] {
      k := 0;
    } else {
      var j := MaxIn(s[1..]);
      k := j + 1;
    }
  }

  datatype Box = Box(x1: real, y1: real, x2: real, y2: real)

  /** `canvas.bbox(tag)`: the smallest box around every point of every item
      with `tag`, or `None` when there is no such point. */
  function Bbox(items: seq<Item>, tag: string): (r: Option<Box>)
    ensures r.None? <==> |TaggedCoords(items, tag)| < 2
  {
    var xs := TaggedCoords(items, tag);
    if |xs| < 2 then None
    else Some(Box(Min(Evens(xs)), Min(Odds(xs)), Max(Evens(xs)), Max(Odds(xs))))
  }

  /** `bbox_center`: unpacking the `None` of an empty box raises TypeError. */
  function BoxCenter(b: Option<Box>): (r: Result<Point>)
    ensures r.Err? <==> b.None?
    ensures r.Err? ==> r.error == TypeError
    ensures r.Ok? ==> r.value.0 - b.value.x1 == b.value.x2 - r.value.0
    ensures r.Ok? ==> r.value.1 - b.value.y1 == b.value.y2 - r.value.1
  {
    match b
    case None => Err(TypeError)
    case Some(Box(x1, y1, x2, y2)) => Ok(((x1 + x2) / 2.0, (y1 + y2) / 2.0))
  }

  // ---------------------------------------------------------------------
  // Laws of the surface operations.

  /** No operation can leave half a point behind. */
  lemma WholePointsKept(items: seq<Item>, tag: string, cs: seq<real>, ts: seq<string>, t: string,
                        dx: real, dy: real, sx: real, sy: real)
    requires WholePoints(items)
    ensures Create(items, cs, ts).Ok? ==> WholePoints(Create(items, cs, ts).value)
    ensures SetCoords(items, tag, cs).Ok? ==> WholePoints(SetCoords(items, tag, cs).value)
    ensures WholePoints(AddTag(items, t, tag)) && WholePoints(DTag(items, tag, t)) && WholePoints(Retag(items, tag, ts))
    ensures WholePoints(Move(items, tag, dx, dy)) && WholePoints(Scale(items, tag, dx, dy, sx, sy))
  {
  }

  /** Setting coordinates changes only the addressed item's coordinates, and
      reading them back returns what was set. */
  lemma SetCoordsThenCoords(items: seq<Item>, tag: string, cs: seq<real>)
    requires SetCoords(items, tag, cs).Ok? && First(items, tag).Some? && cs != []
    ensures CoordsOf(SetCoords(items, tag, cs).value, tag) == cs
    ensures forall i :: 0 <= i < |items| ==> SetCoords(items, tag, cs).value[i].tags == items[i].tags
    ensures forall i :: 0 <= i < |items| && i != First(items, tag).value ==>
      SetCoords(items, tag, cs).value[i] == items[i]
  {
    var r := SetCoords(items, tag, cs).value;
    var k := First(items, tag).value;
    FirstSameTags(items, r, tag);
  }

  /** `First` only looks at tags. */
  lemma {:induction false} FirstSameTags(a: seq<Item>, b: seq<Item>, tag: string)
    requires |a| == |b| && forall i :: 0 <= i < |a| ==> a[i].tags == b[i].tags
    ensures First(a, tag) == First(b, tag)
  {
    if a != [] {
      FirstSameTags(a[1..], b[1..], tag);
    }
  }

  /** After `addtag_withtag` every item that carried `withTag` carries
      `newTag`; no coordinates change and other items are untouched. */
  lemma AddTagSpec(items: seq<Item>, newTag: string, withTag: string)
    ensures |AddTag(items, newTag, withTag)| == |items|
    ensures forall i :: 0 <= i < |items| && withTag in items[i].tags ==>
      && newTag in AddTag(items, newTag, withTag)[i].tags
      && withTag in AddTag(items, newTag, withTag)[i].tags
    ensures forall i :: 0 <= i < |items| && withTag !in items[i].tags ==>
      AddTag(items, newTag, withTag)[i] == items[i]
    ensures forall i :: 0 <= i < |items| ==> AddTag(items, newTag, withTag)[i].coords == items[i].coords
  {
  }

  /** Adding a tag a second time changes nothing. */
  lemma AddTagIdempotent(items: seq<Item>, newTag: string, withTag: string)
    ensures AddTag(AddTag(items, newTag, withTag), newTag, withTag) == AddTag(items, newTag, withTag)
  {
    var once := AddTag(items, newTag, withTag);
    assert forall i :: 0 <= i < |items| ==> AddTag(once, newTag, withTag)[i] == once[i];
  }

  /** After `dtag` no item that carried `withTag` carries `tagToDelete`; every
      other tag stays; other items are untouched. */
  lemma DTagSpec(items: seq<Item>, withTag: string, tagToDelete: string)
    ensures |DTag(items, withTag, tagToDelete)| == |items|
    ensures forall i :: 0 <= i < |items| && withTag in items[i].tags ==>
      && tagToDelete !in DTag(items, withTag, tagToDelete)[i].tags
      && forall t :: t in items[i].tags && t != tagToDelete ==> t in DTag(items, withTag, tagToDelete)[i].tags
    ensures forall i :: 0 <= i < |items| && withTag !in items[i].tags ==>
      DTag(items, withTag, tagToDelete)[i] == items[i]
  {
  }

  /** Moving by `(dx, dy)` and then by `(ex, ey)` is one move by the sums. */
  lemma MoveCompose(items: seq<Item>, tag: string, dx: real, dy: real, ex: real, ey: real)
    ensures Move(Move(items, tag, dx, dy), tag, ex, ey) == Move(items, tag, dx + ex, dy + ey)
  {
    var once := Move(items, tag, dx, dy);
    forall i | 0 <= i < |items|
      ensures Move(once, tag, ex, ey)[i] == Move(items, tag, dx + ex, dy + ey)[i]
    {
      if tag in items[i].tags {
        TranslateCompose(items[i].coords, dx, dy, ex, ey);
      }
    }
  }

  lemma {:induction false} TranslateCompose(xs: seq<real>, dx: real, dy: real, ex: real, ey: real)
    ensures Translate(Translate(xs, dx, dy), ex, ey) == Translate(xs, dx + ex, dy + ey)
  {
    if xs != [] {
      TranslateCompose(xs[1..], dy, dx, ey, ex);
    }
  }

  /** Moving back by the opposite amounts restores every item. */
  lemma MoveBack(items: seq<Item>, tag: string, dx: real, dy: real)
    ensures Move(Move(items, tag, dx, dy), tag, -dx, -dy) == items
  {
    MoveCompose(items, tag, dx, dy, -dx, -dy);
    forall i | 0 <= i < |items|
      ensures Move(items, tag, 0.0, 0.0)[i] == items[i]
    {
      TranslateZero(items[i].coords);
    }
  }

  lemma {:induction false} TranslateZero(xs: seq<real>)
    ensures Translate(xs, 0.0, 0.0) == xs
  {
    if xs != [] {
      TranslateZero(xs[1..]);
    }
  }

  /** Scaling by one in both directions changes nothing. */
  lemma ScaleByOne(items: seq<Item>, tag: string, x0: real, y0: real)
    ensures Scale(items, tag, x0, y0, 1.0, 1.0) == items
  {
    forall i | 0 <= i < |items|
      ensures Scale(items, tag, x0, y0, 1.0, 1.0)[i] == items[i]
    {
      var xs := items[i].coords;
      assert Stretch(xs, x0, y0, 1.0, 1.0) == xs;
    }
  }

  /** Two scalings about the same point make one scaling by the products of
      the factors. */
  lemma ScaleCompose(items: seq<Item>, tag: string, x0: real, y0: real, sx: real, sy: real, tx: real, ty: real)
    ensures Scale(Scale(items, tag, x0, y0, sx, sy), tag, x0, y0, tx, ty) == Scale(items, tag, x0, y0, sx * tx, sy * ty)
  {
    var once := Scale(items, tag, x0, y0, sx, sy);
    forall i | 0 <= i < |items|
      ensures Scale(once, tag, x0, y0, tx, ty)[i] == Scale(items, tag, x0, y0, sx * tx, sy * ty)[i]
    {
      if tag in items[i].tags {
        StretchCompose(items[i].coords, x0, y0, sx, sy, tx, ty);
      }
    }
  }

  lemma StretchCompose(xs: seq<real>, x0: real, y0: real, sx: real, sy: real, tx: real, ty: real)
    ensures Stretch(Stretch(xs, x0, y0, sx, sy), x0, y0, tx, ty) == Stretch(xs, x0, y0, sx * tx, sy * ty)
  {
    var twice := Stretch(Stretch(xs, x0, y0, sx, sy), x0, y0, tx, ty);
    forall i | 0 <= i < |xs|
      ensures twice[i] == Stretch(xs, x0, y0, sx * tx, sy * ty)[i]
    {
      TowardCompose(x0, sx, tx, xs[i]);
      TowardCompose(y0, sy, ty, xs[i]);
    }
  }

  lemma TowardCompose(c: real, s: real, t: real, x: real)
    ensures Toward(c, t, Toward(c, s, x)) == Toward(c, s * t, x)
  {
    assert Toward(c, s, x) - c == s * (x - c);
    assert t * (s * (x - c)) == (s * t) * (x - c);
  }

  /** Scaling by the reciprocal factors about the same point undoes a
      scaling by non-zero factors. */
  lemma ScaleBack(items: seq<Item>, tag: string, x0: real, y0: real, sx: real, sy: real)
    requires sx != 0.0 && sy != 0.0
    ensures Scale(Scale(items, tag, x0, y0, sx, sy), tag, x0, y0, 1.0 / sx, 1.0 / sy) == items
  {
    var tx, ty := 1.0 / sx, 1.0 / sy;
    ScaleCompose(items, tag, x0, y0, sx, sy, tx, ty);
    assert sx * tx == 1.0 && sy * ty == 1.0;
    ScaleByOne(items, tag, x0, y0);
  }

  /** Every point of every item with `tag` lies inside the bounding box. */
  lemma BboxContains(items: seq<Item>, tag: string, i: nat, k: nat)
    requires WholePoints(items)
    requires i < |items| && tag in items[i].tags && k + 1 < |items[i].coords| && k % 2 == 0
    ensures Bbox(items, tag).Some?
    ensures var b := Bbox(items, tag).value;
      b.x1 <= items[i].coords[k] <= b.x2 && b.y1 <= items[i].coords[k + 1] <= b.y2
  {
    var xs := TaggedCoords(items, tag);
    var j := TaggedCoordsIndex(items, tag, i, k);
    assert xs[j] == items[i].coords[k] && xs[j + 1] == items[i].coords[k + 1];
    assert Evens(xs)[j / 2] == xs[j];
    assert Odds(xs)[j / 2] == xs[j + 1];
  }

  /** Where coordinate `k` of item `i` sits among the tagged coordinates; items
      hold whole points, so the position keeps the parity of `k`. */
  lemma {:induction false} TaggedCoordsIndex(items: seq<Item>, tag: string, i: nat, k: nat) returns (j: nat)
    requires i < |items| && tag in items[i].tags && k + 1 < |items[i].coords| && k % 2 == 0
    requires WholePoints(items)
    ensures j + 1 < |TaggedCoords(items, tag)| && j % 2 == 0
    ensures TaggedCoords(items, tag)[j] == items[i].coords[k]
    ensures TaggedCoords(items, tag)[j + 1] == items[i].coords[k + 1]
  {
    var head := if tag in items[0].tags then items[0].coords else [];
    if i == 0 {
      j := k;
    } else {
      var j' := TaggedCoordsIndex(items[1..], tag, i - 1, k);
      j := |head| + j';
    }
  }

  // ---------------------------------------------------------------------
  // The canvas object.

  /** A canvas whose item list the methods below change in place. */
  class Canvas {
    var items: seq<Item>

    constructor ()
      ensures items == []
    {
      items := [];
    }

    /** `coords(tag)`. */
    function Coords(tag: string): seq<real>
      reads this
    {
      CoordsOf(items, tag)
    }

    /** `gettags(tag)`. */
    function GetTags(tag: string): seq<string>
      reads this
    {
      TagsOf(items, tag)
    }

    /** `bbox(tag)`. */
    function BboxOf(tag: string): Option<Box>
      reads this
    {
      Bbox(items, tag)
    }

    /** `create_polygon(*cs, tags=ts)`. */
    method CreatePolygon(cs: seq<real>, ts: seq<string>) returns (o: Outcome)
      modifies this
      ensures o.Fail? <==> Create(old(items), cs, ts).Err?
      ensures o.Fail? ==> o.error == TclError && items == old(items)
      ensures o.Pass? ==> items == Create(old(items), cs, ts).value
    {
      var r := Create(items, cs, ts);
      if r.Err? {
        return Fail(r.error);
      }
      items := r.value;
      return Pass;
    }

    /** `coords(tag, *cs)`. */
    method UpdateCoords(tag: string, cs: seq<real>) returns (o: Outcome)
      modifies this
      ensures o.Fail? <==> SetCoords(old(items), tag, cs).Err?
      ensures o.Fail? ==> o.error == TclError && items == old(items)
      ensures o.Pass? ==> items == SetCoords(old(items), tag, cs).value
    {
      var r := SetCoords(items, tag, cs);
      if r.Err? {
        return Fail(r.error);
      }
      items := r.value;
      return Pass;
    }

    /** `addtag_withtag(newTag, withTag)`. */
    method AddTagWithTag(newTag: string, withTag: string)
      modifies this
      ensures items == AddTag(old(items), newTag, withTag)
    {
      items := AddTag(items, newTag, withTag);
    }

    /** `dtag(withTag, tagToDelete)`. */
    method DeleteTag(withTag: string, tagToDelete: string)
      modifies this
      ensures items == DTag(old(items), withTag, tagToDelete)
    {
      items := DTag(items, withTag, tagToDelete);
    }

    /** `itemconfig(withTag, tags=ts)`. */
    method ItemConfigTags(withTag: string, ts: seq<string>)
      modifies this
      ensures items == Retag(old(items), withTag, ts)
    {
      items := Retag(items, withTag, ts);
    }

    /** `move(tag, dx, dy)`. */
    method MoveItems(tag: string, dx: real, dy: real)
      modifies this
      ensures items == Move(old(items), tag, dx, dy)
    {
      items := Move(items, tag, dx, dy);
    }

    /** `scale(tag, x0, y0, sx, sy)`. */
    method ScaleItems(tag: string, x0: real, y0: real, sx: real, sy: real)
      modifies this
      ensures items == Scale(old(items), tag, x0, y0, sx, sy)
    {
      items := Scale(items, tag, x0, y0, sx, sy);
    }
  }
}
