/** The two sequence operations behind `_sort_vertices_for_proper_plotting`:
    building a dict from the points (which keeps the first occurrence of
    each point, in insertion order) and Python's stable `sorted` by a key. */
module Ordering {

  predicate NoDups<T(==)>(s: seq<T>) {
    forall i, j :: 0 <= i < j < |s| ==> s[i] != s[j]
  }

  /** Position of the first occurrence of `x` in `s`. */
  function FirstIndex<T(==)>(s: seq<T>, x: T): (r: nat)
    requires x in s
    ensures r < |s| && s[r] == x
    ensures forall i :: 0 <= i < r ==> s[i] != x
  {
    if s[0] == x then 0 else 1 + FirstIndex(s[1..], x)
  }

  /** The elements of `t` appear in `t` in order of their first occurrence in `s`. */
  ghost predicate InFirstOccurrenceOrder<T>(t: seq<T>, s: seq<T>) {
    && (forall x :: x in t ==> x in s)
    && forall i, j :: 0 <= i < j < |t| ==> FirstIndex(s, t[i]) < FirstIndex(s, t[j])
  }

  /** The keys of a Python dict built from `s`: each distinct element once,
      at the place where it first occurred. */
  function Dedup<T(==)>(s: seq<T>): seq<T> {
    if s == [] then []
    else
      var d := Dedup(s[..|s| - 1]);
      if s[|s| - 1] in d then d else d + [s[|s| - 1]]
  }

  lemma {:induction false} FirstIndexExtend<T>(s: seq<T>, y: T, x: T)
    requires x in s
    ensures x in s + [y] && FirstIndex(s + [y], x) == FirstIndex(s, x)
  {
    if s[0] != x {
      assert (s + [y])[1..] == s[1..] + [y];
      FirstIndexExtend(s[1..], y, x);
    }
  }

  lemma FirstIndexLast<T>(s: seq<T>, y: T)
    requires y !in s
    ensures y in s + [y] && FirstIndex(s + [y], y) == |s|
  {
    assert forall i :: 0 <= i < |s| ==> (s + [y])[i] == s[i] != y;
  }

  /** A dict built from `s` keeps every distinct element of `s` exactly once,
      in the order of first occurrence. */
  lemma {:induction false} DedupSpec<T>(s: seq<T>)
    ensures NoDups(Dedup(s))
    ensures forall x :: x in Dedup(s) <==> x in s
    ensures InFirstOccurrenceOrder(Dedup(s), s)
  {
    if s != [] {
      var init, last := s[..|s| - 1], s[|s| - 1];
      assert s == init + [last];
      DedupSpec(init);
      var d := Dedup(init);
      forall x | x in d ensures FirstIndex(s, x) == FirstIndex(init, x) {
        FirstIndexExtend(init, last, x);
      }
      if last !in d {
        FirstIndexLast(init, last);
        forall i | 0 <= i < |d| ensures FirstIndex(s, d[i]) < |init| {
          assert d[i] in init;
        }
      }
    }
  }

  /** A sequence without repeats is its own dict keys. */
  lemma {:induction false} DedupOfDistinct<T>(s: seq<T>)
    requires NoDups(s)
    ensures Dedup(s) == s
  {
    if s != [] {
      var init, last := s[..|s| - 1], s[|s| - 1];
      forall i | 0 <= i < |init| ensures init[i] != last {
        assert init[i] == s[i];
      }
      DedupOfDistinct(init);
      assert s == init + [last];
    }
  }

  lemma {:induction false} DedupNoLonger<T>(s: seq<T>)
    ensures |Dedup(s)| <= |s|
  {
    if s != [] {
      DedupNoLonger(s[..|s| - 1]);
    }
  }

  /** A repeated element makes the dict smaller than the sequence. */
  lemma {:induction false} DedupShrinks<T>(s: seq<T>, i: nat, j: nat)
    requires i < j < |s| && s[i] == s[j]
    ensures |Dedup(s)| < |s|
  {
    var init := s[..|s| - 1];
    if j == |s| - 1 {
      DedupSpec(init);
      assert init[i] == s[j];
      DedupNoLonger(init);
    } else {
      assert init[i] == init[j];
      DedupShrinks(init, i, j);
    }
  }

  /** Removing repeats leaves between one element and all of them, and all
      of them exactly when there is no repeat. */
  lemma DistinctCount<T>(ps: seq<T>)
    requires ps != []
    ensures 1 <= |Dedup(ps)| <= |ps|
    ensures |Dedup(ps)| == |ps| <==> NoDups(ps)
  {
    DedupNoLonger(ps);
    if NoDups(ps) {
      DedupOfDistinct(ps);
    } else {
      var i, j :| 0 <= i < j < |ps| && ps[i] == ps[j];
      DedupShrinks(ps, i, j);
    }
  }

  // ---------------------------------------------------------------------
  // Stable sorting by a key (Python's `sorted(..., key=...)`).

  ghost predicate SortedBy<T>(s: seq<T>, key: T -> real) {
    forall i, j :: 0 <= i < j < |s| ==> key(s[i]) <= key(s[j])
  }

  /** The elements of `s` whose key is `k`, in their order in `s`. */
  function KeyClass<T>(s: seq<T>, key: T -> real, k: real): seq<T> {
    if s == [] then []
    else KeyClass(s[..|s| - 1], key, k) + (if key(s[|s| - 1]) == k then [s[|s| - 1]] else [])
  }

  /** Inserts `x` into the sorted `t` after every element whose key is not larger. */
  function InsertBy<T>(t: seq<T>, x: T, key: T -> real): seq<T> {
    if t == [] then [x]
    else if key(t[|t| - 1]) <= key(x) then t + [x]
    else InsertBy(t[..|t| - 1], x, key) + [t[|t| - 1]]
  }

  /** Stable insertion sort; equal keys keep their input order. */
  function SortBy<T>(s: seq<T>, key: T -> real): seq<T> {
    if s == [] then [] else InsertBy(SortBy(s[..|s| - 1], key), s[|s| - 1], key)
  }

  lemma {:induction false} InsertByPermutes<T>(t: seq<T>, x: T, key: T -> real)
    ensures multiset(InsertBy(t, x, key)) == multiset(t) + multiset{x}
  {
    if t != [] && key(t[|t| - 1]) > key(x) {
      InsertByPermutes(t[..|t| - 1], x, key);
      assert t == t[..|t| - 1] + [t[|t| - 1]];
    }
  }

  lemma {:induction false} InsertBySorted<T>(t: seq<T>, x: T, key: T -> real)
    requires SortedBy(t, key)
    ensures SortedBy(InsertBy(t, x, key), key)
  {
    if t != [] && key(t[|t| - 1]) > key(x) {
      var init, last := t[..|t| - 1], t[|t| - 1];
      InsertBySorted(init, x, key);
      InsertByPermutes(init, x, key);
      var u := InsertBy(init, x, key);
      forall i | 0 <= i < |u| ensures key(u[i]) <= key(last) {
        assert u[i] in multiset(u);
        assert u[i] in multiset(init) || u[i] == x;
      }
    }
  }

  lemma {:induction false} InsertByKeyClass<T>(t: seq<T>, x: T, key: T -> real, k: real)
    requires SortedBy(t, key)
    ensures KeyClass(InsertBy(t, x, key), key, k)
         == KeyClass(t, key, k) + (if key(x) == k then [x] else [])
  {
    if t == [] {
      assert KeyClass([x], key, k) == KeyClass([], key, k) + (if key(x) == k then [x] else []);
    } else if key(t[|t| - 1]) <= key(x) {
      assert (t + [x])[..|t|] == t;
    } else {
      var init, last := t[..|t| - 1], t[|t| - 1];
      InsertByKeyClass(init, x, key, k);
      var u := InsertBy(init, x, key);
      assert (u + [last])[..|u|] == u;
    }
  }

  /** `SortBy` sorts by the key, permutes, and is stable: restricted to one
      key value the output lists the elements in their input order. */
  lemma {:induction false} SortBySpec<T>(s: seq<T>, key: T -> real)
    ensures SortedBy(SortBy(s, key), key)
    ensures multiset(SortBy(s, key)) == multiset(s)
    ensures forall k :: KeyClass(SortBy(s, key), key, k) == KeyClass(s, key, k)
  {
    if s != [] {
      var init, last := s[..|s| - 1], s[|s| - 1];
      assert s == init + [last];
      SortBySpec(init, key);
      InsertBySorted(SortBy(init, key), last, key);
      InsertByPermutes(SortBy(init, key), last, key);
      forall k ensures KeyClass(SortBy(s, key), key, k) == KeyClass(s, key, k) {
        InsertByKeyClass(SortBy(init, key), last, key, k);
      }
    }
  }

  lemma {:induction false} KeyClassMembers<T>(s: seq<T>, key: T -> real, k: real)
    ensures forall x :: x in KeyClass(s, key, k) <==> x in s && key(x) == k
  {
    if s != [] {
      KeyClassMembers(s[..|s| - 1], key, k);
      assert s == s[..|s| - 1] + [s[|s| - 1]];
    }
  }

  /** Two elements with the same key keep their relative order inside the key class. */
  lemma {:induction false} KeyClassPositions<T>(s: seq<T>, key: T -> real, i: nat, j: nat)
    requires i < j < |s| && key(s[i]) == key(s[j])
    ensures exists a, b :: 0 <= a < b < |KeyClass(s, key, key(s[i]))|
                           && KeyClass(s, key, key(s[i]))[a] == s[i]
                           && KeyClass(s, key, key(s[i]))[b] == s[j]
  {
    var k := key(s[i]);
    var init := s[..|s| - 1];
    var c := KeyClass(init, key, k);
    if j == |s| - 1 {
      KeyClassMembers(init, key, k);
      assert s[i] == init[i];
      var a :| 0 <= a < |c| && c[a] == s[i];
      assert KeyClass(s, key, k) == c + [s[j]];
      assert KeyClass(s, key, k)[a] == s[i] && KeyClass(s, key, k)[|c|] == s[j];
    } else {
      assert s[i] == init[i] && s[j] == init[j];
      KeyClassPositions(init, key, i, j);
      var a, b :| 0 <= a < b < |c| && c[a] == s[i] && c[b] == s[j];
      var full := KeyClass(s, key, k);
      assert full[..|c|] == c;
      assert full[a] == s[i] && full[b] == s[j];
    }
  }

  lemma {:induction false} KeyClassKeepsOrder<T>(t: seq<T>, s: seq<T>, key: T -> real, k: real)
    requires InFirstOccurrenceOrder(t, s)
    ensures InFirstOccurrenceOrder(KeyClass(t, key, k), s)
  {
    KeyClassMembers(t, key, k);
    if t != [] {
      var init, last := t[..|t| - 1], t[|t| - 1];
      assert InFirstOccurrenceOrder(init, s);
      KeyClassKeepsOrder(init, s, key, k);
      KeyClassMembers(init, key, k);
      var c := KeyClass(init, key, k);
      forall a | 0 <= a < |c| ensures FirstIndex(s, c[a]) < FirstIndex(s, last) {
        assert c[a] in c;
        var i :| 0 <= i < |init| && init[i] == c[a];
      }
    }
  }

  lemma SameMembers<T>(a: seq<T>, b: seq<T>)
    requires multiset(a) == multiset(b)
    ensures forall x :: x in a <==> x in b
  {
    forall x ensures x in a <==> x in b {
      assert x in a <==> x in multiset(a);
      assert x in b <==> x in multiset(b);
    }
  }

  lemma {:induction false} NoDupsCount<T>(s: seq<T>, x: T)
    requires NoDups(s)
    ensures multiset(s)[x] <= 1
  {
    if s != [] {
      var init, last := s[..|s| - 1], s[|s| - 1];
      assert s == init + [last];
      NoDupsCount(init, x);
      forall i | 0 <= i < |init| ensures init[i] != last {
        assert s[i] == init[i];
      }
    }
  }

  lemma NoDupsOfPermutation<T>(d: seq<T>, r: seq<T>)
    requires NoDups(d) && multiset(d) == multiset(r)
    ensures NoDups(r)
  {
    forall i, j | 0 <= i < j < |r| ensures r[i] != r[j] {
      NoDupsCount(d, r[i]);
      assert r == r[..i] + [r[i]] + r[i + 1..j] + [r[j]] + r[j + 1..];
      assert multiset(r)[r[i]] >= 1 + (if r[j] == r[i] then 1 else 0);
    }
  }

  lemma StableSortedDedup<T>(s: seq<T>, key: T -> real)
    ensures var r := SortBy(Dedup(s), key);
      forall i, j :: 0 <= i < j < |r| && key(r[i]) == key(r[j]) ==>
        r[i] in s && r[j] in s && FirstIndex(s, r[i]) < FirstIndex(s, r[j])
  {
    var d := Dedup(s);
    var r := SortBy(d, key);
    DedupSpec(s);
    SortBySpec(d, key);
    forall i, j | 0 <= i < j < |r| && key(r[i]) == key(r[j])
      ensures r[i] in s && r[j] in s && FirstIndex(s, r[i]) < FirstIndex(s, r[j])
    {
      var k := key(r[i]);
      KeyClassPositions(r, key, i, j);
      KeyClassKeepsOrder(d, s, key, k);
      var c := KeyClass(r, key, k);
      assert c == KeyClass(d, key, k);
      var a, b :| 0 <= a < b < |c| && c[a] == r[i] && c[b] == r[j];
    }
  }

  /** `r` lists every distinct element of `s` exactly once, sorted by `key`,
      elements with equal keys in the order of their first occurrence in `s`. */
  ghost predicate StableDistinctSort<T>(r: seq<T>, s: seq<T>, key: T -> real) {
    && NoDups(r)
    && (forall i :: 0 <= i < |r| ==> r[i] in s)
    && (forall i :: 0 <= i < |s| ==> s[i] in r)
    && SortedBy(r, key)
    && forall i, j :: 0 <= i < j < |r| && key(r[i]) == key(r[j]) ==>
         r[i] in s && r[j] in s && FirstIndex(s, r[i]) < FirstIndex(s, r[j])
  }

  /** Sorting the dict keys is a stable sort of the distinct elements. */
  lemma SortedDedupSpec<T>(s: seq<T>, key: T -> real)
    ensures StableDistinctSort(SortBy(Dedup(s), key), s, key)
  {
    var d := Dedup(s);
    var r := SortBy(d, key);
    DedupSpec(s);
    SortBySpec(d, key);
    SameMembers(d, r);
    NoDupsOfPermutation(d, r);
    StableSortedDedup(s, key);
    forall i | 0 <= i < |r| ensures r[i] in s {
      assert r[i] in multiset(r);
      assert r[i] in d;
    }
    forall i | 0 <= i < |s| ensures s[i] in r {
      assert s[i] in s;
      assert s[i] in multiset(d);
    }
  }
}
