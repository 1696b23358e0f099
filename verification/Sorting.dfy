/** Listing a set and sorting a list, for any strict order. */
module Sorting {

  predicate Distinct<T(==)>(s: seq<T>) {
    forall i, j :: 0 <= i < j < |s| ==> s[i] != s[j]
  }

  /** A strict order; elements that it does not tell apart may come in any order. */
  ghost predicate StrictOrder<T(!new)>(less: (T, T) -> bool) {
    && (forall a, b :: less(a, b) ==> !less(b, a))
    && (forall a, b, c :: less(a, c) ==> less(a, b) || less(b, c))
  }

  predicate InOrder<T>(less: (T, T) -> bool, s: seq<T>) {
    forall i, j :: 0 <= i < j < |s| ==> !less(s[j], s[i])
  }

  function Insert<T>(less: (T, T) -> bool, s: seq<T>, e: T): (r: seq<T>)
    ensures multiset(r) == multiset(s) + multiset{e}
  {
    if s == [] || !less(e, s[|s| - 1]) then s + [e]
    else
      assert s == s[..|s| - 1] + [s[|s| - 1]];
      Insert(less, s[..|s| - 1], e) + [s[|s| - 1]]
  }

  lemma {:induction false} InsertKeepsOrder<T(!new)>(less: (T, T) -> bool, s: seq<T>, e: T)
    requires StrictOrder(less) && InOrder(less, s)
    ensures InOrder(less, Insert(less, s, e))
  {
    if s != [] && less(e, s[|s| - 1]) {
      var front, last := s[..|s| - 1], s[|s| - 1];
      InsertKeepsOrder(less, front, e);
      var r := Insert(less, front, e);
      forall i | 0 <= i < |r|
        ensures !less(last, r[i])
      {
        assert r[i] in multiset(r);
        assert r[i] in multiset(front) || r[i] == e;
      }
    } else if s != [] {
      forall i | 0 <= i < |s|
        ensures !less(e, s[i])
      {
        assert i < |s| - 1 ==> !less(s[|s| - 1], s[i]);
      }
    }
  }

  method Sort<T(!new)>(less: (T, T) -> bool, raw: seq<T>) returns (s: seq<T>)
    requires StrictOrder(less)
    ensures multiset(s) == multiset(raw) && InOrder(less, s)
  {
    hide StrictOrder, InOrder, Insert;
    s := [];
    NothingToOrder(less);
    for i := 0 to |raw|
      invariant multiset(s) == multiset(raw[..i]) && InOrder(less, s)
    {
      InsertKeepsOrder(less, s, raw[i]);
      s := Insert(less, s, raw[i]);
      assert raw[..i + 1] == raw[..i] + [raw[i]];
    }
    assert raw[..|raw|] == raw;
  }

  lemma NothingToOrder<T>(less: (T, T) -> bool)
    ensures InOrder(less, [])
  {
  }

  // ---------- Repetitions

  lemma Repeats<T>(s: seq<T>, p: nat, q: nat)
    requires p < q < |s| && s[p] == s[q]
    ensures multiset(s)[s[p]] >= 2
  {
    assert s == s[..q] + [s[q]] + s[q + 1..];
    assert s[p] in s[..q];
  }

  lemma {:induction false} CountsOnce<T>(s: seq<T>, x: T)
    requires Distinct(s)
    ensures multiset(s)[x] <= 1
  {
    if s != [] {
      var front, last := s[..|s| - 1], s[|s| - 1];
      CountsOnce(front, x);
      assert s == front + [last];
      assert x == last ==> x !in front;
    }
  }

  /** Sorting a list without repetitions gives one without repetitions, with the same elements. */
  lemma SortedDistinct<T(!new)>(s: seq<T>, raw: seq<T>)
    requires multiset(s) == multiset(raw) && Distinct(raw)
    ensures Distinct(s) && forall x :: x in s <==> x in raw
  {
    forall i, j | 0 <= i < j < |s|
      ensures s[i] != s[j]
    {
      if s[i] == s[j] {
        Repeats(s, i, j);
        CountsOnce(raw, s[i]);
      }
    }
    forall x
      ensures x in s <==> x in raw
    {
      assert x in s <==> x in multiset(s);
    }
  }

  /** The elements of a set, each once, in any order. */
  method Elements<T(==)>(xs: set<T>) returns (s: seq<T>)
    ensures Distinct(s) && forall x :: x in s <==> x in xs
  {
    s := [];
    var rest := xs;
    while rest != {}
      invariant rest <= xs && Distinct(s)
      invariant forall x :: x in s <==> x in xs - rest
      decreases rest
    {
      var x :| x in rest;
      assert x !in s;
      s, rest := s + [x], rest - {x};
    }
  }
}
