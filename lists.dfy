/**
 * The array operations the reducers, the list inputs and the toast list use:
 * `filter`, `findIndex`, `includes` and the overwrite of one element.
 */
module Lists {

  /** `s.filter(p)`. */
  function Keep<T(!new)>(s: seq<T>, p: T -> bool): (r: seq<T>)
    ensures |r| <= |s|
    ensures forall x :: x in r <==> x in s && p(x)
    decreases |s|
  {
    if s == [] then [] else (if p(s[0]) then [s[0]] else []) + Keep(s[1..], p)
  }

  /** Filtering distributes over concatenation: the kept elements stay in their
      original order. */
  lemma {:induction false} KeepAppend<T(!new)>(a: seq<T>, b: seq<T>, p: T -> bool)
    ensures Keep(a + b, p) == Keep(a, p) + Keep(b, p)
    decreases |a|
  {
    if a == [] {
      assert a + b == b;
    } else {
      assert (a + b)[0] == a[0];
      assert (a + b)[1..] == a[1..] + b;
      KeepAppend(a[1..], b, p);
    }
  }

  /** A filter that keeps every element returns the list unchanged. */
  lemma {:induction false} KeepEverything<T(!new)>(s: seq<T>, p: T -> bool)
    requires forall x :: x in s ==> p(x)
    ensures Keep(s, p) == s
    decreases |s|
  {
    if s != [] {
      KeepEverything(s[1..], p);
    }
  }

  /** Filtering out an element just appended, from a list none of whose
      elements the filter drops, gives the list back. */
  lemma KeepDropsAppended<T(!new)>(s: seq<T>, x: T, p: T -> bool)
    requires forall y :: y in s ==> p(y)
    requires !p(x)
    ensures Keep(s + [x], p) == s
  {
    KeepAppend(s, [x], p);
    KeepEverything(s, p);
  }

  lemma KeepOne<T(!new)>(x: T, p: T -> bool)
    ensures Keep([x], p) == if p(x) then [x] else []
  {
    assert [x][1..] == [];
  }

  /** A filter that matches no element returns the empty list. */
  lemma KeepNone<T(!new)>(s: seq<T>, p: T -> bool)
    requires forall x :: x in s ==> !p(x)
    ensures Keep(s, p) == []
  {
  }

  predicate NoDuplicates<T(==)>(s: seq<T>) {
    forall i, j :: 0 <= i < j < |s| ==> s[i] != s[j]
  }

  /** Filtering a list without duplicates leaves it without duplicates. */
  lemma {:induction false} KeepNoDuplicates<T(!new)>(s: seq<T>, p: T -> bool)
    requires NoDuplicates(s)
    ensures NoDuplicates(Keep(s, p))
    decreases |s|
  {
    if s != [] {
      assert NoDuplicates(s[1..]);
      KeepNoDuplicates(s[1..], p);
      assert s[0] !in s[1..];
    }
  }

  /** `s.findIndex(p)`: the first position whose element satisfies `p`, or -1. */
  function IndexOfFirst<T>(s: seq<T>, p: T -> bool): (i: int)
    ensures -1 <= i < |s|
    ensures i == -1 <==> forall j :: 0 <= j < |s| ==> !p(s[j])
    ensures i >= 0 ==> p(s[i]) && forall j :: 0 <= j < i ==> !p(s[j])
  {
    if s == [] then -1
    else if p(s[0]) then 0
    else
      var k := IndexOfFirst(s[1..], p);
      if k == -1 then -1 else k + 1
  }

  /** `const i = s.findIndex(p); if (i !== -1) s[i] = x;` */
  function ReplaceFirst<T>(s: seq<T>, p: T -> bool, x: T): seq<T> {
    var i := IndexOfFirst(s, p);
    if i == -1 then s else s[i := x]
  }

  /** Overwriting the first match keeps the length, writes `x` at the first
      match and nowhere else; with no match nothing changes. */
  lemma ReplaceFirstEffect<T>(s: seq<T>, p: T -> bool, x: T)
    ensures |ReplaceFirst(s, p, x)| == |s|
    ensures (forall j :: 0 <= j < |s| ==> !p(s[j])) ==> ReplaceFirst(s, p, x) == s
    ensures forall i :: 0 <= i < |s| && p(s[i]) && (forall j :: 0 <= j < i ==> !p(s[j])) ==>
              ReplaceFirst(s, p, x) == s[i := x]
  {
    var k := IndexOfFirst(s, p);
    forall i | 0 <= i < |s| && p(s[i]) && (forall j :: 0 <= j < i ==> !p(s[j]))
      ensures ReplaceFirst(s, p, x) == s[i := x]
    {
      assert k == i;
    }
  }
}
