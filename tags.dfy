/** Tags as the canvas reads them from a `tags` option string, and the
    merging `config` does so that a shape never loses its id tag. */
module Tags {
  import opened Outcomes

  /** A tag as it comes out of a tags string: not empty and without spaces. */
  predicate IsTag(t: string) {
    t != [] && ' ' !in t
  }

  predicate AllTags(ts: seq<string>) {
    forall i :: 0 <= i < |ts| ==> IsTag(ts[i])
  }

  /** The leading run of non-space characters. */
  function Word(s: string): (w: string)
    ensures w <= s && ' ' !in w
    ensures |w| < |s| ==> s[|w|] == ' '
    ensures s != [] && s[0] != ' ' ==> w != []
  {
    if s == [] || s[0] == ' ' then [] else [s[0]] + Word(s[1..])
  }

  /** The tags list the canvas reads from a string: the words between spaces. */
  function Split(s: string): (ts: seq<string>)
    ensures AllTags(ts)
    decreases |s|
  {
    if s == [] then []
    else if s[0] == ' ' then Split(s[1..])
    else
      var w := Word(s);
      [w] + Split(s[|w|..])
  }

  /** `' '.join(ts)`. */
  function Join(ts: seq<string>): string {
    if ts == [] then ""
    else if |ts| == 1 then ts[0]
    else ts[0] + " " + Join(ts[1..])
  }

  lemma {:induction false} WordOfTag(t: string)
    requires ' ' !in t
    ensures Word(t) == t
  {
    if t != [] {
      WordOfTag(t[1..]);
    }
  }

  lemma {:induction false} WordSpaced(a: string, b: string)
    ensures Word(a + " " + b) == Word(a)
  {
    if a != [] && a[0] != ' ' {
      assert (a + " " + b)[1..] == a[1..] + " " + b;
      WordSpaced(a[1..], b);
    }
  }

  /** A single tag reads back as itself. */
  lemma SplitTag(t: string)
    requires IsTag(t)
    ensures Split(t) == [t]
  {
    WordOfTag(t);
    assert t[|t|..] == [];
  }

  /** A space separates what is on its two sides. */
  lemma {:induction false} SplitSpaced(a: string, b: string)
    ensures Split(a + " " + b) == Split(a) + Split(b)
    decreases |a|
  {
    var s := a + " " + b;
    if a == [] {
      assert s[1..] == b;
    } else if a[0] == ' ' {
      assert s[1..] == a[1..] + " " + b;
      SplitSpaced(a[1..], b);
    } else {
      var w := Word(a);
      WordSpaced(a, b);
      assert s[|w|..] == a[|w|..] + " " + b;
      SplitSpaced(a[|w|..], b);
    }
  }

  /** Joining tags with spaces and reading them back gives the same tags. */
  lemma {:induction false} SplitJoin(ts: seq<string>)
    requires AllTags(ts)
    ensures Split(Join(ts)) == ts
  {
    if |ts| == 1 {
      SplitTag(ts[0]);
    } else if |ts| > 1 {
      SplitTag(ts[0]);
      SplitSpaced(ts[0], Join(ts[1..]));
      SplitJoin(ts[1..]);
    }
  }

  /** The value of the `tags` keyword argument of `config`: not given (or
      `None`, which Tkinter drops), a string, a tuple or list of strings, a
      non-empty tuple or list with an entry that is not a string, a false
      value of another type (`0`, `False`, an empty dict) which Tk then reads
      as the tag list `read`, or a true value of another type. */
  datatype TagsOption =
    | Absent
    | Text(s: string)
    | Items(ts: seq<string>)
    | MixedItems
    | Falsy(read: seq<string>)
    | Invalid
  {
    /** `config` raises for this option. */
    predicate Raises() { MixedItems? || Invalid? }

    /** The exception: `' '.join` refuses a non-string entry with TypeError;
        any other true value is refused with ValueError. */
    function Raised(): Error
      requires Raises()
    {
      if MixedItems? then TypeError else ValueError
    }
  }

  /** What `config` hands on to the canvas as the item's new tags: `None`
      leaves the tags alone; a non-empty string or sequence gets the id tag
      appended; a false value skips the merge and reaches Tk as it is, so an
      empty string or sequence clears the tags. */
  function MergeTags(opt: TagsOption, id: string): (r: Result<Option<seq<string>>>)
    ensures r.Err? <==> opt.Raises()
    ensures r.Err? ==> r.error == opt.Raised()
    ensures opt.Absent? ==> r == Ok(None)
    ensures opt == Text("") || opt == Items([]) ==> r == Ok(Some([]))
    ensures opt.Falsy? ==> r == Ok(Some(opt.read))
  {
    match opt
    case Absent => Ok(None)
    case Text(s) => Ok(Some(if s == "" then [] else Split(s + " " + id)))
    case Items(ts) => Ok(Some(if ts == [] then [] else Split(Join(ts) + " " + id)))
    case MixedItems => Err(TypeError)
    case Falsy(read) => Ok(Some(read))
    case Invalid => Err(ValueError)
  }

  /** A non-empty string: its words, then the id tag. */
  lemma MergeText(s: string, id: string)
    requires s != "" && IsTag(id)
    ensures MergeTags(Text(s), id) == Ok(Some(Split(s) + [id]))
  {
    SplitSpaced(s, id);
    SplitTag(id);
  }

  /** A non-empty sequence of tags: the same tags in order, then the id tag. */
  lemma MergeItems(ts: seq<string>, id: string)
    requires ts != [] && AllTags(ts) && IsTag(id)
    ensures MergeTags(Items(ts), id) == Ok(Some(ts + [id]))
  {
    SplitSpaced(Join(ts), id);
    SplitTag(id);
    SplitJoin(ts);
  }

  /** Whenever `config` merges a string or a list of strings into a
      non-empty tag list, the id tag is its last entry. */
  lemma MergeKeepsId(opt: TagsOption, id: string)
    requires IsTag(id)
    requires opt.Text? || opt.Items?
    ensures var ts := MergeTags(opt, id).value.value;
      ts == [] <==> opt == Text("") || opt == Items([])
    ensures var ts := MergeTags(opt, id).value.value;
      ts != [] ==> ts[|ts| - 1] == id
  {
    match opt
    case Text(s) =>
      if s != "" {
        MergeText(s, id);
      }
    case Items(ts) =>
      if ts != [] {
        SplitSpaced(Join(ts), id);
        SplitTag(id);
      }
  }
}
