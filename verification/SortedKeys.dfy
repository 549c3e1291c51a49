/**
 Iterating over a map's keys in sorted order, as every query 4 stage does before it
 emits: the order of the outputs depends on the keys alone.
 */
module SortedKeys {
  import opened Common

  ghost predicate StrictOrder<K(!new)>(less: (K, K) -> bool) {
    && (forall a: K, b: K, c: K :: less(a, b) && less(b, c) ==> less(a, c))
    && (forall a: K, b: K :: less(a, b) || less(b, a) || a == b)
    && (forall a: K, b: K :: !(less(a, b) && less(b, a)))
    && (forall a: K :: !less(a, a))
  }

  ghost predicate Ascending<K>(xs: seq<K>, less: (K, K) -> bool) {
    forall i, j :: 0 <= i < j < |xs| ==> less(xs[i], xs[j])
  }

  /** xs is the ascending list of the set s. */
  ghost predicate Lists<K>(xs: seq<K>, s: set<K>, less: (K, K) -> bool) {
    Ascending(xs, less) && SetOf(xs) == s
  }

  lemma TailMembers<K(!new)>(xs: seq<K>, less: (K, K) -> bool)
    requires StrictOrder(less) && Ascending(xs, less) && |xs| > 0
    ensures SetOf(xs[1..]) == SetOf(xs) - {xs[0]} && Ascending(xs[1..], less)
  {
    assert xs == [xs[0]] + xs[1..];
    assert forall k :: 0 <= k < |xs| - 1 ==> less(xs[0], xs[1..][k]);
  }

  lemma EmptySetOf<K>(xs: seq<K>)
    ensures SetOf(xs) == {} <==> |xs| == 0
  {
    if |xs| > 0 {
      assert xs[0] in SetOf(xs);
    }
  }

  /** There is one ascending list of a set. */
  lemma {:induction false} AscendingIsUnique<K(!new)>(xs: seq<K>, ys: seq<K>, less: (K, K) -> bool)
    requires StrictOrder(less) && Ascending(xs, less) && Ascending(ys, less) && SetOf(xs) == SetOf(ys)
    ensures xs == ys
  {
    EmptySetOf(xs);
    EmptySetOf(ys);
    if |xs| > 0 {
      assert xs[0] in SetOf(ys) && ys[0] in SetOf(xs);
      var i :| 0 <= i < |ys| && ys[i] == xs[0];
      var j :| 0 <= j < |xs| && xs[j] == ys[0];
      assert xs[0] == ys[0];
      TailMembers(xs, less);
      TailMembers(ys, less);
      AscendingIsUnique(xs[1..], ys[1..], less);
    }
  }

  /** The list as a function of the set. */
  ghost function Sorted<K(!new)>(s: set<K>, less: (K, K) -> bool): (xs: seq<K>)
    requires StrictOrder(less)
    ensures Lists(xs, s, less)
  {
    SortedExists(s, less);
    var xs :| Lists(xs, s, less);
    xs
  }

  lemma SortedIs<K(!new)>(xs: seq<K>, s: set<K>, less: (K, K) -> bool)
    requires StrictOrder(less) && Lists(xs, s, less)
    ensures xs == Sorted(s, less)
  {
    AscendingIsUnique(xs, Sorted(s, less), less);
  }

  /** Where x belongs in the ascending list xs. */
  function Place<K>(xs: seq<K>, x: K, less: (K, K) -> bool): (i: nat)
    ensures i <= |xs| && (forall k :: 0 <= k < i ==> less(xs[k], x)) && (i < |xs| ==> !less(xs[i], x))
  {
    if |xs| == 0 || !less(xs[0], x) then 0 else Place(xs[1..], x, less) + 1
  }

  lemma InsertedLists<K(!new)>(xs: seq<K>, x: K, i: nat, s: set<K>, less: (K, K) -> bool)
    requires StrictOrder(less) && Lists(xs, s, less) && x !in s && i <= |xs|
    requires (forall k :: 0 <= k < i ==> less(xs[k], x)) && (i < |xs| ==> !less(xs[i], x))
    ensures Lists(xs[..i] + [x] + xs[i..], s + {x}, less)
  {
    hide StrictOrder, Ascending;
    InsertedMembers(xs, x, i);
    if i < |xs| {
      assert xs[i] in SetOf(xs);
      Above(xs[i], x, less);
    }
    InsertedAscends(xs, x, i, less);
  }

  lemma Above<K(!new)>(a: K, x: K, less: (K, K) -> bool)
    requires StrictOrder(less) && a != x && !less(a, x)
    ensures less(x, a)
  {
  }

  lemma InsertedMembers<K>(xs: seq<K>, x: K, i: nat)
    requires i <= |xs|
    ensures SetOf(xs[..i] + [x] + xs[i..]) == SetOf(xs) + {x}
  {
    assert xs == xs[..i] + xs[i..];
  }

  lemma InsertedAscends<K(!new)>(xs: seq<K>, x: K, i: nat, less: (K, K) -> bool)
    requires StrictOrder(less) && Ascending(xs, less) && i <= |xs|
    requires (forall k :: 0 <= k < i ==> less(xs[k], x)) && (i < |xs| ==> less(x, xs[i]))
    ensures Ascending(xs[..i] + [x] + xs[i..], less)
  {
    hide StrictOrder;
    var ys := xs[..i] + [x] + xs[i..];
    forall k | i <= k < |xs| ensures less(x, xs[k]) {
      if k > i {
        Chain(x, xs[i], xs[k], less);
      }
    }
    forall k, l | 0 <= k < l < |ys| ensures less(ys[k], ys[l]) {
      var a, b := if k <= i then k else k - 1, if l <= i then l else l - 1;
      assert (k != i ==> ys[k] == xs[a]) && (l != i ==> ys[l] == xs[b]);
    }
  }

  lemma Chain<K(!new)>(a: K, b: K, c: K, less: (K, K) -> bool)
    requires StrictOrder(less) && less(a, b) && less(b, c)
    ensures less(a, c)
  {
  }

  lemma {:induction false} SortedExists<K(!new)>(s: set<K>, less: (K, K) -> bool)
    requires StrictOrder(less)
    ensures exists xs :: Lists(xs, s, less)
  {
    if s == {} {
      assert Lists([], s, less);
    } else {
      hide Lists, StrictOrder;
      var x :| x in s;
      SortedExists(s - {x}, less);
      var xs :| Lists(xs, s - {x}, less);
      InsertedLists(xs, x, Place(xs, x, less), s - {x}, less);
      assert s - {x} + {x} == s;
    }
  }

  /** Keys in map order, then sorted. */
  method SortKeys<K(!new, ==)>(s: set<K>, less: (K, K) -> bool) returns (xs: seq<K>)
    requires StrictOrder(less)
    ensures xs == Sorted(s, less)
  {
    xs := [];
    var todo := s;
    while todo != {}
      invariant todo <= s && Lists(xs, s - todo, less)
    {
      var x :| x in todo;
      ghost var done := s - todo;
      var i := 0;
      while i < |xs| && less(xs[i], x)
        invariant i <= |xs| && forall k :: 0 <= k < i ==> less(xs[k], x)
      {
        i := i + 1;
      }
      InsertedLists(xs, x, i, done, less);
      todo := todo - {x};
      assert s - todo == done + {x};
      xs := xs[..i] + [x] + xs[i..];
    }
    assert s - todo == s;
    SortedIs(xs, s, less);
  }
}
