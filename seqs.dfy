/**
 * The Kotlin collection operations the query layer is built from
 * (filter, flatMap, find, any, mapNotNull), as functions on sequences.
 */
module Seqs {
  import opened Wrappers

  /** list.filter(p): the elements satisfying p, in their original order. */
  function Filter<T>(s: seq<T>, p: T -> bool): (r: seq<T>)
    ensures |r| <= |s|
    ensures forall i :: 0 <= i < |r| ==> r[i] in s && p(r[i])
    ensures forall i :: 0 <= i < |s| && p(s[i]) ==> s[i] in r
  {
    if s == [] then []
    else
      assert s == [s[0]] + s[1..];
      (if p(s[0]) then [s[0]] else []) + Filter(s[1..], p)
  }

  /** list.flatMap(f): the concatenation of f over the elements, in order. */
  function FlatMap<T, U>(s: seq<T>, f: T -> seq<U>): seq<U>
  {
    if s == [] then [] else f(s[0]) + FlatMap(s[1..], f)
  }

  /** list.any(p). */
  predicate Any<T>(s: seq<T>, p: T -> bool)
  {
    exists i :: 0 <= i < |s| && p(s[i])
  }

  /** The index of the first element satisfying p, if there is one. */
  function FindIndex<T>(s: seq<T>, p: T -> bool): (r: Option<nat>)
    ensures r.None? <==> forall i :: 0 <= i < |s| ==> !p(s[i])
    ensures r.Some? ==> r.value < |s| && p(s[r.value])
    ensures r.Some? ==> forall j :: 0 <= j < r.value ==> !p(s[j])
  {
    if s == [] then None
    else if p(s[0]) then Some(0)
    else
      var k := FindIndex(s[1..], p);
      assert forall i :: 1 <= i < |s| ==> s[i] == s[1..][i - 1];
      if k.None? then None else Some(k.value + 1)
  }

  /** i is the first index of s whose element satisfies p. */
  predicate IsFirst<T>(s: seq<T>, i: int, p: T -> bool)
  {
    0 <= i < |s| && p(s[i]) && forall j :: 0 <= j < i ==> !p(s[j])
  }

  /** list.find(p): the first element satisfying p, if there is one. */
  function Find<T>(s: seq<T>, p: T -> bool): (r: Option<T>)
    ensures r.None? <==> !Any(s, p)
    ensures r.Some? ==> exists i :: IsFirst(s, i, p) && s[i] == r.value
    ensures forall i :: IsFirst(s, i, p) ==> r == Some(s[i])
  {
    var k := FindIndex(s, p);
    if k.None? then None
    else
      assert IsFirst(s, k.value, p);
      Some(s[k.value])
  }

  /** list.mapNotNull(f): the present results of f, in order. */
  function MapNotNull<T, U>(s: seq<T>, f: T -> Option<U>): (r: seq<U>)
    ensures |r| <= |s|
    ensures |r| == |s| <==> forall i :: 0 <= i < |s| ==> f(s[i]).Some?
    ensures |r| == |s| ==> forall i :: 0 <= i < |s| ==> r[i] == f(s[i]).value
  {
    if s == [] then []
    else
      assert forall i :: 1 <= i < |s| ==> s[i] == s[1..][i - 1];
      (if f(s[0]).Some? then [f(s[0]).value] else []) + MapNotNull(s[1..], f)
  }

  lemma {:induction false} FilterConcat<T>(a: seq<T>, b: seq<T>, p: T -> bool)
    ensures Filter(a + b, p) == Filter(a, p) + Filter(b, p)
  {
    if a == [] {
      assert a + b == b;
    } else {
      assert (a + b)[1..] == a[1..] + b;
      FilterConcat(a[1..], b, p);
    }
  }

  lemma {:induction false} FlatMapConcat<T, U>(a: seq<T>, b: seq<T>, f: T -> seq<U>)
    ensures FlatMap(a + b, f) == FlatMap(a, f) + FlatMap(b, f)
  {
    if a == [] {
      assert a + b == b;
    } else {
      assert (a + b)[1..] == a[1..] + b;
      FlatMapConcat(a[1..], b, f);
    }
  }

  /** An element of a flatMap comes from the image of some element, and every such one is there. */
  lemma {:induction false} FlatMapMembership<T, U>(s: seq<T>, f: T -> seq<U>, y: U)
    ensures y in FlatMap(s, f) <==> exists x :: x in s && y in f(x)
  {
    if s != [] {
      FlatMapMembership(s[1..], f, y);
      assert s == [s[0]] + s[1..];
      if y in f(s[0]) {
        assert s[0] in s;
      }
    }
  }

  /** Membership in a filter, stated on elements. */
  lemma FilterMembership<T>(s: seq<T>, p: T -> bool, x: T)
    ensures x in Filter(s, p) <==> x in s && p(x)
  {
    var r := Filter(s, p);
    if x in r {
      var i :| 0 <= i < |r| && r[i] == x;
    }
    if x in s && p(x) {
      var i :| 0 <= i < |s| && s[i] == x;
    }
  }

  /** A filter that every element passes changes nothing. */
  lemma {:induction false} FilterAll<T>(s: seq<T>, p: T -> bool)
    requires forall i :: 0 <= i < |s| ==> p(s[i])
    ensures Filter(s, p) == s
  {
    if s != [] {
      FilterAll(s[1..], p);
    }
  }

  /** The elements f maps to a value. */
  function Resolves<T, U>(f: T -> Option<U>): T -> bool
  {
    x => f(x).Some?
  }

  /** The values f maps the elements to, for a list whose every element maps to one. */
  function Values<T, U>(s: seq<T>, f: T -> Option<U>): (r: seq<U>)
    requires forall i :: 0 <= i < |s| ==> f(s[i]).Some?
    ensures |r| == |s| && forall i :: 0 <= i < |r| ==> r[i] == f(s[i]).value
  {
    seq(|s|, i requires 0 <= i < |s| => f(s[i]).value)
  }

  /** mapNotNull distributes over concatenation. */
  lemma {:induction false} MapNotNullConcat<T, U>(a: seq<T>, b: seq<T>, f: T -> Option<U>)
    ensures MapNotNull(a + b, f) == MapNotNull(a, f) + MapNotNull(b, f)
  {
    if a == [] {
      assert a + b == b;
    } else {
      assert (a + b)[0] == a[0] && (a + b)[1..] == a[1..] + b;
      MapNotNullConcat(a[1..], b, f);
    }
  }

  /** On one element, mapNotNull keeps its value or drops it. */
  lemma MapNotNullSingleton<T, U>(x: T, f: T -> Option<U>)
    ensures MapNotNull([x], f) == if f(x).Some? then [f(x).value] else []
  {
    assert [x][1..] == [];
  }

  /**
   * mapNotNull drops the elements that map to nothing and keeps the values
   * of the others, in order: it is filter followed by taking the values.
   */
  lemma {:induction false} MapNotNullIsFilterValues<T, U>(s: seq<T>, f: T -> Option<U>)
    ensures forall i :: 0 <= i < |Filter(s, Resolves(f))| ==> f(Filter(s, Resolves(f))[i]).Some?
    ensures MapNotNull(s, f) == Values(Filter(s, Resolves(f)), f)
  {
    var p := Resolves(f);
    assert forall i :: 0 <= i < |Filter(s, p)| ==> p(Filter(s, p)[i]);
    if s != [] {
      MapNotNullIsFilterValues(s[1..], f);
      var head := if p(s[0]) then [s[0]] else [];
      var tail := Filter(s[1..], p);
      assert Filter(s, p) == head + tail;
      var values := Values(Filter(s, p), f);
      assert values == Values(head, f) + Values(tail, f) by {
        assert |values| == |head| + |tail|;
        forall i | 0 <= i < |values|
          ensures values[i] == (Values(head, f) + Values(tail, f))[i]
        {
          if i >= |head| {
            assert Filter(s, p)[i] == tail[i - |head|];
          }
        }
      }
    }
  }

  /** A filter that no element passes leaves nothing. */
  lemma FilterNone<T>(s: seq<T>, p: T -> bool)
    requires forall i :: 0 <= i < |s| ==> !p(s[i])
    ensures Filter(s, p) == []
  {
  }
}
