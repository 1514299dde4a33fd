/**
 The part of `System.Linq` the runner relies on: `Enumerable.Union`, which
 yields the elements of its first argument and then those of its second,
 skipping every element already yielded (reference equality for objects).
 */
module Linq {

  predicate NoDuplicates<T(==)>(s: seq<T>) {
    forall i, j :: 0 <= i < j < |s| ==> s[i] != s[j]
  }

  /** Position of the first occurrence of `x` in `s`. */
  function FirstIndex<T(==)>(s: seq<T>, x: T): (i: nat)
    requires x in s
    ensures i < |s| && s[i] == x && x !in s[..i]
  {
    if s[0] == x then 0 else 1 + FirstIndex(s[1..], x)
  }

  /** The elements of `s`, each once, in the order of their first occurrence. */
  function Distinct<T(==)>(s: seq<T>): (r: seq<T>)
    ensures NoDuplicates(r)
    ensures forall x :: x in r ==> x in s
    ensures forall x :: x in s ==> x in r
    ensures |r| <= |s|
  {
    if s == [] then []
    else
      var p := Distinct(s[..|s| - 1]);
      var x := s[|s| - 1];
      if x in p then p else p + [x]
  }

  /** `a.Union(b)`: the distinct elements of `a`, then those of `b` not yet seen. */
  function Union<T(==)>(a: seq<T>, b: seq<T>): (r: seq<T>)
    ensures NoDuplicates(r)
    ensures forall x :: x in r ==> x in a || x in b
    ensures forall x :: x in a ==> x in r
    ensures forall x :: x in b ==> x in r
    ensures Distinct(a) <= r
  {
    DistinctPrefix(a, b);
    Distinct(a + b)
  }

  /** Distinct keeps the first occurrences in their original order. */
  lemma {:induction false} DistinctKeepsFirstOccurrenceOrder<T>(s: seq<T>, i: nat, j: nat)
    requires i < j < |Distinct(s)|
    ensures FirstIndex(s, Distinct(s)[i]) < FirstIndex(s, Distinct(s)[j])
  {
    var s', x := s[..|s| - 1], s[|s| - 1];
    assert s == s' + [x];
    var p := Distinct(s');
    var r := Distinct(s);
    FirstIndexAppend(s', [x], r[i]);
    if x in p {
      FirstIndexAppend(s', [x], r[j]);
      DistinctKeepsFirstOccurrenceOrder(s', i, j);
    } else if j < |p| {
      FirstIndexAppend(s', [x], r[j]);
      DistinctKeepsFirstOccurrenceOrder(s', i, j);
    } else {
      assert r[j] == x && x !in s';
    }
  }

  /** Appending elements does not move a first occurrence. */
  lemma {:induction false} FirstIndexAppend<T>(s: seq<T>, t: seq<T>, x: T)
    requires x in s
    ensures FirstIndex(s + t, x) == FirstIndex(s, x)
  {
    if s[0] != x {
      assert (s + t)[1..] == s[1..] + t;
      FirstIndexAppend(s[1..], t, x);
    }
  }

  /** A sequence without duplicates is its own Distinct. */
  lemma {:induction false} DistinctOfNoDuplicates<T>(s: seq<T>)
    requires NoDuplicates(s)
    ensures Distinct(s) == s
  {
    if s != [] {
      var s' := s[..|s| - 1];
      DistinctOfNoDuplicates(s');
      assert s' + [s[|s| - 1]] == s;
    }
  }

  /** The distinct elements of `a` come first in the distinct elements of `a + b`. */
  lemma {:induction false} DistinctPrefix<T>(a: seq<T>, b: seq<T>)
    ensures Distinct(a) <= Distinct(a + b)
  {
    if b == [] {
      assert a + b == a;
    } else {
      var b' := b[..|b| - 1];
      assert (a + b)[..|a + b| - 1] == a + b';
      DistinctPrefix(a, b');
    }
  }

  /** Taking Distinct of a prefix first does not change the result. */
  lemma {:induction false} DistinctAbsorbsPrefix<T>(a: seq<T>, b: seq<T>)
    ensures Distinct(Distinct(a) + b) == Distinct(a + b)
  {
    if b == [] {
      assert Distinct(a) + b == Distinct(a);
      assert a + b == a;
      DistinctOfNoDuplicates(Distinct(a));
    } else {
      var b' := b[..|b| - 1];
      assert (Distinct(a) + b)[..|Distinct(a) + b| - 1] == Distinct(a) + b';
      assert (a + b)[..|a + b| - 1] == a + b';
      DistinctAbsorbsPrefix(a, b');
    }
  }

  /** Successive unions are one union of the concatenation: `a.Union(b).Union(c)`. */
  lemma UnionAssociates<T>(a: seq<T>, b: seq<T>, c: seq<T>)
    ensures Union(Union(a, b), c) == Distinct(a + b + c)
  {
    DistinctAbsorbsPrefix(a + b, c);
  }

  /** Union of two duplicate-free sequences with no element in common keeps every element. */
  lemma UnionOfDisjoint<T>(a: seq<T>, b: seq<T>)
    requires NoDuplicates(a) && NoDuplicates(b)
    requires forall x :: x in a ==> x !in b
    ensures Union(a, b) == a + b
  {
    var s := a + b;
    forall i, j | 0 <= i < j < |s| ensures s[i] != s[j] {
      if j < |a| {
      } else if i >= |a| {
        assert s[i] == b[i - |a|] && s[j] == b[j - |a|];
      } else {
        assert s[i] in a && s[j] in b;
      }
    }
    DistinctOfNoDuplicates(s);
  }
}
