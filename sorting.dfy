/**
 * `Array.prototype.sort` with a comparator: a stable sort (ECMAScript 2019),
 * written as the insertion sort that the in-place version below performs.
 */
module Sorting {
  import opened Lists

  /** `le` is a total preorder: any two elements compare, and comparison chains. */
  ghost predicate TotalPreorder<T(!new)>(le: (T, T) -> bool) {
    && (forall a, b :: le(a, b) || le(b, a))
    && (forall a, b, c :: le(a, b) && le(b, c) ==> le(a, c))
  }

  predicate SortedBy<T>(s: seq<T>, le: (T, T) -> bool) {
    forall i, j :: 0 <= i < j < |s| ==> le(s[i], s[j])
  }

  /** Insert `x` after the last element that is not strictly greater than it,
      moving the greater ones one place to the right. */
  function InsertBy<T>(t: seq<T>, x: T, le: (T, T) -> bool): (r: seq<T>)
    ensures |r| == |t| + 1
  {
    if t == [] then [x]
    else if le(t[|t| - 1], x) then t + [x]
    else InsertBy(t[..|t| - 1], x, le) + [t[|t| - 1]]
  }

  /** The stable sort of `s` by `le`. */
  function SortBy<T>(s: seq<T>, le: (T, T) -> bool): (r: seq<T>)
    ensures |r| == |s|
  {
    if s == [] then [] else InsertBy(SortBy(s[..|s| - 1], le), s[|s| - 1], le)
  }

  lemma {:induction false} InsertByPermutation<T>(t: seq<T>, x: T, le: (T, T) -> bool)
    ensures multiset(InsertBy(t, x, le)) == multiset(t) + multiset{x}
  {
    if t != [] && !le(t[|t| - 1], x) {
      var u := t[..|t| - 1];
      assert t == u + [t[|t| - 1]];
      InsertByPermutation(u, x, le);
    }
  }

  /** The sort returns a permutation of its input. */
  lemma {:induction false} SortByPermutation<T>(s: seq<T>, le: (T, T) -> bool)
    ensures multiset(SortBy(s, le)) == multiset(s)
  {
    if s != [] {
      var u := s[..|s| - 1];
      assert s == u + [s[|s| - 1]];
      SortByPermutation(u, le);
      InsertByPermutation(SortBy(u, le), s[|s| - 1], le);
    }
  }

  lemma {:induction false} InsertBySorted<T(!new)>(t: seq<T>, x: T, le: (T, T) -> bool)
    requires TotalPreorder(le)
    requires SortedBy(t, le)
    ensures SortedBy(InsertBy(t, x, le), le)
    ensures forall y :: y in InsertBy(t, x, le) ==> y in t || y == x
  {
    var r := InsertBy(t, x, le);
    if t != [] && !le(t[|t| - 1], x) {
      var u := t[..|t| - 1];
      var last := t[|t| - 1];
      InsertBySorted(u, x, le);
      var v := InsertBy(u, x, le);
      assert r == v + [last];
      assert le(x, last);
      forall i | 0 <= i < |v| ensures le(v[i], last) {
        assert v[i] in v;
        if v[i] != x {
          assert v[i] in u;
          var k :| 0 <= k < |u| && u[k] == v[i];
          assert t[k] == u[k];
        }
      }
    }
  }

  /** The sort returns its input in ascending order. */
  lemma {:induction false} SortBySorted<T(!new)>(s: seq<T>, le: (T, T) -> bool)
    requires TotalPreorder(le)
    ensures SortedBy(SortBy(s, le), le)
  {
    if s != [] {
      SortBySorted(s[..|s| - 1], le);
      InsertBySorted(SortBy(s[..|s| - 1], le), s[|s| - 1], le);
    }
  }

  /** Inserting does not reorder the elements of a class `q` of mutually
      equivalent elements: `x` goes after every one of them. */
  lemma {:induction false} InsertByKeep<T(!new)>(t: seq<T>, x: T, le: (T, T) -> bool, q: T -> bool)
    requires forall a, b :: q(a) && q(b) ==> le(a, b)
    ensures Keep(InsertBy(t, x, le), q) == Keep(t, q) + Keep([x], q)
  {
    if t == [] {
    } else if le(t[|t| - 1], x) {
      KeepAppend(t, [x], q);
    } else {
      var u := t[..|t| - 1];
      var last := t[|t| - 1];
      assert t == u + [last];
      var v := InsertBy(u, x, le);
      assert InsertBy(t, x, le) == v + [last];
      InsertByKeep(u, x, le, q);
      KeepPastLast(v, u, x, last, q);
    }
  }

  /** The step of `InsertByKeep` where `x` goes before `last`, which is not
      of `x`'s class. */
  lemma KeepPastLast<T(!new)>(v: seq<T>, u: seq<T>, x: T, last: T, q: T -> bool)
    requires Keep(v, q) == Keep(u, q) + Keep([x], q)
    requires !(q(x) && q(last))
    ensures Keep(v + [last], q) == Keep(u + [last], q) + Keep([x], q)
  {
    KeepAppend(v, [last], q);
    KeepAppend(u, [last], q);
    KeepOne(x, q);
    KeepOne(last, q);
    SwapAroundEmpty(Keep(u, q), Keep([x], q), Keep([last], q));
  }

  lemma SwapAroundEmpty<T>(a: seq<T>, b: seq<T>, c: seq<T>)
    requires b == [] || c == []
    ensures a + b + c == a + c + b
  {
    if b == [] {
      assert a + b == a;
    } else {
      assert a + c == a;
    }
  }

  /** Stability: elements that compare equal keep their relative input order. */
  lemma {:induction false} SortByStable<T(!new)>(s: seq<T>, le: (T, T) -> bool, q: T -> bool)
    requires forall a, b :: q(a) && q(b) ==> le(a, b)
    ensures Keep(SortBy(s, le), q) == Keep(s, q)
  {
    if s != [] {
      var u, x := s[..|s| - 1], s[|s| - 1];
      assert s == u + [x];
      assert SortBy(s, le) == InsertBy(SortBy(u, le), x, le);
      SortByStable(u, le, q);
      InsertByKeep(SortBy(u, le), x, le, q);
      KeepAppend(u, [x], q);
    }
  }

  /** Where `x` ends up when the elements from position `j` on are all strictly
      greater than it. */
  lemma {:induction false} InsertBySplit<T>(t: seq<T>, x: T, le: (T, T) -> bool, j: nat)
    requires j <= |t|
    requires forall m :: j <= m < |t| ==> !le(t[m], x)
    requires j == 0 || le(t[j - 1], x)
    ensures InsertBy(t, x, le) == t[..j] + [x] + t[j..]
    decreases |t|
  {
    if |t| == j {
      assert t[..j] == t;
    } else {
      var u := t[..|t| - 1];
      var last := t[|t| - 1];
      assert !le(last, x);
      assert InsertBy(t, x, le) == InsertBy(u, x, le) + [last];
      assert forall m :: j <= m < |u| ==> u[m] == t[m];
      assert j == 0 || u[j - 1] == t[j - 1];
      InsertBySplit(u, x, le, j);
      assert u[..j] == t[..j];
      assert u[j..] + [last] == t[j..];
    }
  }

  /** One step of the insertion sort: move `a[i]` left past the strictly
      greater elements before it. */
  method InsertAt<T>(a: array<T>, i: nat, le: (T, T) -> bool)
    requires i < a.Length
    modifies a
    ensures a[..i + 1] == InsertBy(old(a[..i]), old(a[i]), le)
    ensures a[i + 1..] == old(a[i + 1..])
  {
    ghost var sorted := a[..i];
    ghost var rest := a[i + 1..];
    var x := a[i];
    var j := i;
    while j > 0 && !le(a[j - 1], x)
      invariant 0 <= j <= i
      invariant a[..j] == sorted[..j]
      invariant a[j + 1..i + 1] == sorted[j..]
      invariant a[i + 1..] == rest
      invariant forall m :: j <= m < i ==> !le(sorted[m], x)
    {
      a[j] := a[j - 1];
      j := j - 1;
    }
    ghost var before := a[..];
    a[j] := x;
    assert a[..j] == before[..j] == sorted[..j];
    assert a[j + 1..i + 1] == before[j + 1..i + 1] == sorted[j..];
    assert a[..i + 1] == a[..j] + [x] + a[j + 1..i + 1];
    InsertBySplit(sorted, x, le, j);
  }

  /** `a.sort(compare)`, as the in-place insertion sort. */
  method SortInPlace<T>(a: array<T>, le: (T, T) -> bool)
    modifies a
    ensures a[..] == SortBy(old(a[..]), le)
  {
    ghost var orig := a[..];
    var i := 0;
    while i < a.Length
      invariant 0 <= i <= a.Length
      invariant a[..i] == SortBy(orig[..i], le)
      invariant a[i..] == orig[i..]
    {
      InsertAt(a, i, le);
      assert orig[..i + 1][..i] == orig[..i];
      i := i + 1;
    }
    assert orig[..a.Length] == orig;
  }
}
