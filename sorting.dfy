/** The in-place sorts of the core (`sort.Slice`, `slices.Sort`,
    `slices.SortFunc`) all order records by one integer key, ascending or
    descending. Go's sorts are not stable; insertion sort is one of the
    orders they may produce, and the contracts below say only what every
    such order has in common: sorted by the key, and a permutation. */
module Sorting {

  /** `a` may come before `b` in the requested direction. */
  predicate InOrder(a: int, b: int, descending: bool) {
    if descending then a >= b else a <= b
  }

  predicate SortedBy<T>(s: seq<T>, key: T -> int, descending: bool) {
    forall i, j :: 0 <= i < j < |s| ==> InOrder(key(s[i]), key(s[j]), descending)
  }

  /** Sorts `a` in place by `key`. */
  method SortBy<T>(a: array<T>, key: T -> int, descending: bool)
    modifies a
    ensures SortedBy(a[..], key, descending)
    ensures multiset(a[..]) == multiset(old(a[..]))
  {
    var i := 0;
    while i < a.Length
      invariant 0 <= i <= a.Length
      invariant forall k, l :: 0 <= k < l < i ==> InOrder(key(a[k]), key(a[l]), descending)
      invariant multiset(a[..]) == multiset(old(a[..]))
    {
      Insert(a, i, key, descending);
      i := i + 1;
    }
  }

  /** Moves `a[i]` down into the sorted prefix `a[..i]`. */
  method Insert<T>(a: array<T>, i: int, key: T -> int, descending: bool)
    requires 0 <= i < a.Length
    requires forall k, l :: 0 <= k < l < i ==> InOrder(key(a[k]), key(a[l]), descending)
    modifies a
    ensures forall k, l :: 0 <= k < l <= i ==> InOrder(key(a[k]), key(a[l]), descending)
    ensures forall k :: i < k < a.Length ==> a[k] == old(a[k])
    ensures multiset(a[..]) == multiset(old(a[..]))
  {
    var j := i;
    while j > 0 && !InOrder(key(a[j - 1]), key(a[j]), descending)
      invariant 0 <= j <= i
      invariant forall k, l :: 0 <= k < l <= i && k != j && l != j ==> InOrder(key(a[k]), key(a[l]), descending)
      invariant forall l :: j < l <= i ==> InOrder(key(a[j]), key(a[l]), descending)
      invariant forall k :: i < k < a.Length ==> a[k] == old(a[k])
      invariant multiset(a[..]) == multiset(old(a[..]))
    {
      a[j - 1], a[j] := a[j], a[j - 1];
      j := j - 1;
    }
  }

  /** The key of a sequence of plain integers. */
  function Identity(x: int): int {
    x
  }

  lemma SortedHeadsAgree(a: seq<int>, b: seq<int>, descending: bool)
    requires |a| > 0 && |b| > 0
    requires SortedBy(a, Identity, descending) && SortedBy(b, Identity, descending)
    requires multiset(a) == multiset(b)
    ensures a[0] == b[0]
  {
    assert a[0] in multiset(b);
    assert b[0] in multiset(a);
    var i :| 0 <= i < |b| && b[i] == a[0];
    var j :| 0 <= j < |a| && a[j] == b[0];
    assert i == 0 || InOrder(Identity(b[0]), Identity(b[i]), descending);
    assert j == 0 || InOrder(Identity(a[0]), Identity(a[j]), descending);
  }

  lemma SortedTail(s: seq<int>, descending: bool)
    requires |s| > 0 && SortedBy(s, Identity, descending)
    ensures SortedBy(s[1..], Identity, descending)
  {
    forall i, j | 0 <= i < j < |s[1..]|
      ensures InOrder(Identity(s[1..][i]), Identity(s[1..][j]), descending)
    {
      assert s[1..][i] == s[i + 1] && s[1..][j] == s[j + 1];
    }
  }

  lemma SameTailElements(a: seq<int>, b: seq<int>)
    requires |a| > 0 && |b| > 0 && a[0] == b[0] && multiset(a) == multiset(b)
    ensures multiset(a[1..]) == multiset(b[1..])
  {
    assert a == [a[0]] + a[1..] && b == [b[0]] + b[1..];
    assert multiset(a) == multiset{a[0]} + multiset(a[1..]);
    assert multiset(b) == multiset{b[0]} + multiset(b[1..]);
    assert multiset(a[1..]) == multiset(a) - multiset{a[0]};
    assert multiset(b[1..]) == multiset(b) - multiset{b[0]};
  }

  /** Two integer sequences sorted the same way with the same elements are
      equal: what a sort produces does not depend on the order it was given. */
  lemma {:induction false} SortedPermutationUnique(a: seq<int>, b: seq<int>, descending: bool)
    requires SortedBy(a, Identity, descending) && SortedBy(b, Identity, descending)
    requires multiset(a) == multiset(b)
    ensures a == b
    decreases |a|
  {
    assert |a| == |multiset(a)| == |multiset(b)| == |b|;
    if |a| > 0 {
      SortedHeadsAgree(a, b, descending);
      SameTailElements(a, b);
      SortedTail(a, descending);
      SortedTail(b, descending);
      SortedPermutationUnique(a[1..], b[1..], descending);
      assert a == [a[0]] + a[1..] && b == [b[0]] + b[1..];
    }
  }
}
