/**
 * Models of the JavaScript built-ins the timeline components rely on:
 * `null`-able values, `Array.prototype.indexOf`, `splice`, `filter`,
 * `join`, truthiness of a string, the truncating `%`, counting the `true`
 * entries of a boolean array, the decimal rendering of a non-negative integer
 * inside a template literal, and the ratios and `Math.round`ed percentages
 * the scores are shown with (floating-point division taken as exact).
 */
module Js {

  /** A value that may be `null` (or `undefined`). */
  datatype Option<T> = None | Some(value: T)

  /** `s.indexOf(x)`: the first index holding `x`, or -1 when there is none. */
  function IndexOf<T(==)>(s: seq<T>, x: T): (k: int)
    ensures -1 <= k < |s|
    ensures k == -1 <==> x !in s
    ensures 0 <= k ==> s[k] == x && forall j :: 0 <= j < k ==> s[j] != x
  {
    if |s| == 0 then -1
    else if s[0] == x then 0
    else
      var k := IndexOf(s[1..], x);
      if k == -1 then -1 else k + 1
  }

  /** The position `splice(start, ...)` really starts at: a negative start counts back from the end. */
  function SpliceStart(len: nat, start: int): (k: nat)
    ensures k <= len
  {
    if start < 0 then (if len + start < 0 then 0 else len + start)
    else if start > len then len
    else start
  }

  /** The array that `a.splice(start, 1)` leaves behind. */
  function RemoveAt<T>(s: seq<T>, start: int): (r: seq<T>)
    ensures SpliceStart(|s|, start) < |s| ==> |r| == |s| - 1
    ensures SpliceStart(|s|, start) == |s| ==> r == s
  {
    var k := SpliceStart(|s|, start);
    if k < |s| then s[..k] + s[k + 1..] else s
  }

  /** The array that `a.splice(start, 0, x)` leaves behind. */
  function InsertAt<T>(s: seq<T>, start: int, x: T): (r: seq<T>)
    ensures |r| == |s| + 1
    ensures r[SpliceStart(|s|, start)] == x
  {
    var k := SpliceStart(|s|, start);
    s[..k] + [x] + s[k..]
  }

  /** Removing one element and putting it back where it was restores the array. */
  lemma InsertRemoved<T>(s: seq<T>, k: nat)
    requires k < |s|
    ensures InsertAt(RemoveAt(s, k), k, s[k]) == s
  {
    var r := RemoveAt(s, k);
    assert r == s[..k] + s[k + 1..];
    assert r[..k] == s[..k];
    assert r[k..] == s[k + 1..];
  }

  /** Inserting an element and removing it again at the same place restores the array. */
  lemma RemoveInserted<T>(s: seq<T>, k: nat, x: T)
    requires k <= |s|
    ensures RemoveAt(InsertAt(s, k, x), k) == s
  {
    var r := InsertAt(s, k, x);
    assert r[..k] == s[..k];
    assert r[k + 1..] == s[k..];
  }

  /** Removing the element at `k` takes exactly one copy of `s[k]` out of the multiset. */
  lemma RemoveAtMultiset<T>(s: seq<T>, k: nat)
    requires k < |s|
    ensures multiset(RemoveAt(s, k)) == multiset(s) - multiset{s[k]}
  {
    assert s == s[..k] + [s[k]] + s[k + 1..];
  }

  /** Inserting `x` adds exactly one copy of it to the multiset. */
  lemma InsertAtMultiset<T>(s: seq<T>, start: int, x: T)
    ensures multiset(InsertAt(s, start, x)) == multiset(s) + multiset{x}
  {
    var k := SpliceStart(|s|, start);
    assert s == s[..k] + s[k..];
  }

  /** A string in a boolean position: only the empty string is falsy. */
  predicate Truthy(s: Option<string>) {
    s.Some? && s.value != ""
  }

  /** `a % b` for a positive divisor: the remainder takes the sign of `a` (truncating division). */
  function Rem(a: int, b: int): (r: int)
    requires b > 0
    ensures a >= 0 ==> 0 <= r < b && r == a % b
    ensures a < 0 ==> -b < r <= 0 && -r == (-a) % b
  {
    if a >= 0 then a % b else -((-a) % b)
  }

  /** `a / b` on numbers, taken exactly. */
  function Quotient(a: nat, b: nat): real
    requires b > 0
  {
    a as real / b as real
  }

  /** `a / b >= k` for a positive `b` is `a >= k * b`. */
  lemma QuotientAtLeast(a: nat, b: nat, k: real)
    requires b > 0
    ensures Quotient(a, b) >= k <==> a as real >= k * b as real
  {
    var t := b as real;
    assert Quotient(a, b) * t == a as real;
    if Quotient(a, b) >= k {
      assert Quotient(a, b) * t >= k * t;
    } else {
      assert Quotient(a, b) * t < k * t;
    }
  }

  /** `a / b <= k` for a positive `b` is `a <= k * b`. */
  lemma QuotientAtMost(a: nat, b: nat, k: real)
    requires b > 0
    ensures Quotient(a, b) <= k <==> a as real <= k * b as real
  {
    var t := b as real;
    assert Quotient(a, b) * t == a as real;
    if Quotient(a, b) <= k {
      assert Quotient(a, b) * t <= k * t;
    } else {
      assert Quotient(a, b) * t > k * t;
    }
  }

  /** `Math.round((a / b) * 100)`; `Math.round(x)` rounds halves up, i.e. it is `floor(x + 0.5)`. */
  function RoundedPercent(a: nat, b: nat): int
    requires b > 0
  {
    (Quotient(a, b) * 100.0 + 0.5).Floor
  }

  /** A share of at most the whole rounds into [0, 100]: the whole to 100, nothing to 0. */
  lemma RoundedPercentBounds(a: nat, b: nat)
    requires b > 0 && a <= b
    ensures 0 <= RoundedPercent(a, b) <= 100
    ensures a == b ==> RoundedPercent(a, b) == 100
    ensures a == 0 ==> RoundedPercent(a, b) == 0
  {
    QuotientAtLeast(a, b, 0.0);
    QuotientAtMost(a, b, 1.0);
    if a == b {
      assert Quotient(a, b) == 1.0;
    }
  }

  /** `u.every((x, i) => x === v[i])`: no position of `u` disagrees with `v` (a missing `v[i]` is `undefined`). */
  predicate EveryMatches<T(==)>(u: seq<T>, v: seq<T>) {
    forall i :: 0 <= i < |u| ==> i < |v| && u[i] == v[i]
  }

  /** For arrays of the same length, the position-wise check is plain equality. */
  lemma EveryMatchesIsEqual<T>(u: seq<T>, v: seq<T>)
    requires |u| == |v|
    ensures EveryMatches(u, v) <==> u == v
  {
  }

  /** `s.filter(p)`. */
  function Filter<T>(s: seq<T>, p: T -> bool): (r: seq<T>)
    ensures |r| <= |s|
    ensures forall i :: 0 <= i < |r| ==> p(r[i])
  {
    if s == [] then []
    else if p(s[0]) then [s[0]] + Filter(s[1..], p)
    else Filter(s[1..], p)
  }

  /** `r` can be obtained from `s` by deleting elements, keeping the order of the rest. */
  predicate Subsequence<T(==)>(r: seq<T>, s: seq<T>)
    decreases |s|
  {
    if r == [] then true
    else if s == [] then false
    else if r[0] == s[0] then Subsequence(r[1..], s[1..])
    else Subsequence(r, s[1..])
  }

  /** A subsequence of `t` stays one when an element is put in front of `t`. */
  lemma {:induction false} SubsequencePrepend<T>(r: seq<T>, a: T, t: seq<T>)
    requires Subsequence(r, t)
    ensures Subsequence(r, [a] + t)
    decreases |t|, 1
  {
    var s := [a] + t;
    assert s[1..] == t;
    if r != [] && r[0] == a {
      SubsequenceTail(r, t);
    }
  }

  /** Dropping the first element of a subsequence keeps it a subsequence. */
  lemma {:induction false} SubsequenceTail<T>(r: seq<T>, t: seq<T>)
    requires r != [] && Subsequence(r, t)
    ensures Subsequence(r[1..], t)
    decreases |t|, 0
  {
    if r[0] == t[0] {
      SubsequencePrepend(r[1..], t[0], t[1..]);
    } else {
      SubsequenceTail(r, t[1..]);
      SubsequencePrepend(r[1..], t[0], t[1..]);
    }
    assert [t[0]] + t[1..] == t;
  }

  /** Every list is a subsequence of itself. */
  lemma {:induction false} SubsequenceReflexive<T>(s: seq<T>)
    ensures Subsequence(s, s)
  {
    if s != [] {
      SubsequenceReflexive(s[1..]);
    }
  }

  /** A filter keeps the order of what it keeps. */
  lemma {:induction false} FilterIsSubsequence<T>(s: seq<T>, p: T -> bool)
    ensures Subsequence(Filter(s, p), s)
  {
    if s != [] {
      FilterIsSubsequence(s[1..], p);
      assert [s[0]] + s[1..] == s;
      if !p(s[0]) {
        SubsequencePrepend(Filter(s[1..], p), s[0], s[1..]);
      }
    }
  }

  /** A filter keeps every copy of each element that passes and none of those that fail. */
  lemma {:induction false} FilterMultiset<T>(s: seq<T>, p: T -> bool, x: T)
    ensures multiset(Filter(s, p))[x] == if p(x) then multiset(s)[x] else 0
  {
    if s != [] {
      FilterMultiset(s[1..], p, x);
      assert s == [s[0]] + s[1..];
    }
  }

  /** An element is kept exactly when it is in the input and passes. */
  lemma FilterMembership<T>(s: seq<T>, p: T -> bool, x: T)
    ensures x in Filter(s, p) <==> x in s && p(x)
  {
    FilterMultiset(s, p, x);
    assert x in Filter(s, p) <==> multiset(Filter(s, p))[x] > 0;
  }

  /** The number of `true` entries. */
  function CountTrue(bs: seq<bool>): (n: nat)
    ensures n <= |bs|
  {
    if bs == [] then 0 else CountTrue(bs[..|bs| - 1]) + (if bs[|bs| - 1] then 1 else 0)
  }

  /** Appending one answer adds one to the count exactly when the answer is `true`. */
  lemma CountTrueAppend(bs: seq<bool>, b: bool)
    ensures CountTrue(bs + [b]) == CountTrue(bs) + (if b then 1 else 0)
  {
    assert (bs + [b])[..|bs|] == bs;
  }

  /** `parts.join(sep)`. */
  function Join(parts: seq<string>, sep: string): (r: string)
    ensures |parts| == 1 ==> r == parts[0]
  {
    if parts == [] then ""
    else if |parts| == 1 then parts[0]
    else parts[0] + sep + Join(parts[1..], sep)
  }

  predicate IsDigit(c: char) {
    '0' <= c <= '9'
  }

  function DigitValue(c: char): (d: nat)
    requires IsDigit(c)
    ensures d < 10
  {
    (c as int) - ('0' as int)
  }

  function DigitChar(d: nat): (c: char)
    requires d < 10
    ensures IsDigit(c) && DigitValue(c) == d
  {
    ((d + ('0' as int)) as char)
  }

  /** The decimal text `${n}` gives for a non-negative integer `n`. */
  function NatToString(n: nat): (s: string)
    ensures |s| >= 1
    ensures forall i :: 0 <= i < |s| ==> IsDigit(s[i])
    ensures s[0] == '0' ==> n == 0
  {
    if n < 10 then [DigitChar(n)] else NatToString(n / 10) + [DigitChar(n % 10)]
  }

  /** Reading a string of decimal digits back as a number. */
  function ParseNat(s: string): nat
    requires forall i :: 0 <= i < |s| ==> IsDigit(s[i])
  {
    if s == [] then 0 else ParseNat(s[..|s| - 1]) * 10 + DigitValue(s[|s| - 1])
  }

  /** The decimal text of a number reads back as that number. */
  lemma {:induction false} ParseNatToString(n: nat)
    ensures ParseNat(NatToString(n)) == n
  {
    if n >= 10 {
      var s := NatToString(n);
      assert s[..|s| - 1] == NatToString(n / 10);
      ParseNatToString(n / 10);
    }
  }

  /** Distinct numbers have distinct decimal texts. */
  lemma NatToStringInjective(m: nat, n: nat)
    requires NatToString(m) == NatToString(n)
    ensures m == n
  {
    ParseNatToString(m);
    ParseNatToString(n);
  }
}
