/** Facts about sequences and multisets that several of the games lean on. */
module Seqs {

  /** Taking the same element out of two equal multisets leaves equal multisets. */
  lemma MultisetCancel<T>(a: multiset<T>, b: multiset<T>, x: T)
    requires a + multiset{x} == b + multiset{x}
    ensures a == b
  {
    assert a == (a + multiset{x}) - multiset{x};
    assert b == (b + multiset{x}) - multiset{x};
  }

  /** No element occurs twice. */
  predicate Distinct<T(==)>(s: seq<T>) {
    forall i, j :: 0 <= i < j < |s| ==> s[i] != s[j]
  }

  /** The set of elements of a sequence. */
  function Elems<T(!new)>(s: seq<T>): (e: set<T>)
    ensures forall x :: x in e <==> x in s
    ensures |e| <= |s|
  {
    if s == [] then {} else {s[0]} + Elems(s[1..])
  }

  /** A sequence without repeats has as many distinct elements as entries. */
  lemma {:induction false} DistinctElems<T(!new)>(s: seq<T>)
    requires Distinct(s)
    ensures |Elems(s)| == |s|
  {
    if s != [] {
      DistinctElems(s[1..]);
      assert s[0] !in Elems(s[1..]);
    }
  }

  /**
   * Distinct entries all drawn from `t` are no more than `t` has; when there
   * are as many of them as `t` has entries, every element of `t` is among them.
   */
  lemma DistinctWithin<T(!new)>(s: seq<T>, t: seq<T>)
    requires Distinct(s) && forall i :: 0 <= i < |s| ==> s[i] in t
    ensures |s| <= |t|
    ensures |s| == |t| ==> forall x :: x in t ==> x in s
  {
    DistinctElems(s);
    var es, et := Elems(s), Elems(t);
    assert es <= et;
    var d := et - es;
    assert et == es + d && es * d == {};
    assert |et| == |es| + |d|;
    if |s| == |t| {
      assert d == {};
    }
  }

  /** In a sequence without repeats every element occurs once. */
  lemma {:induction false} DistinctCount<T>(s: seq<T>, x: T)
    requires Distinct(s)
    ensures multiset(s)[x] == if x in s then 1 else 0
  {
    if s != [] {
      DistinctCount(s[1..], x);
      assert s == [s[0]] + s[1..];
    }
  }

  /** An element at two positions occurs at least twice. */
  lemma TwoPositions<T>(s: seq<T>, i: nat, j: nat)
    requires i < j < |s|
    ensures s[i] == s[j] ==> multiset(s)[s[i]] >= 2
  {
    assert s == s[..j] + [s[j]] + s[j + 1..];
    assert s[i] in s[..j];
  }

  /** A rearrangement of a sequence without repeats has none either. */
  lemma PermutationDistinct<T>(a: seq<T>, b: seq<T>)
    requires multiset(a) == multiset(b) && Distinct(a)
    ensures Distinct(b)
  {
    forall i, j | 0 <= i < j < |b|
      ensures b[i] != b[j]
    {
      TwoPositions(b, i, j);
      DistinctCount(a, b[i]);
    }
  }
}
