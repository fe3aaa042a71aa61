/** Sorting by a strict total order. `sort.Slice` is not stable and Go maps enumerate in any order;
    a strict total order on the elements makes the sorted slice unique all the same. */
module Ordering {

  ghost predicate StrictTotalOn<T>(less: (T, T) -> bool, s: seq<T>) {
    && (forall x :: x in s ==> !less(x, x))
    && (forall x, y :: x in s && y in s && x != y ==> less(x, y) || less(y, x))
    && (forall x, y, z :: x in s && y in s && z in s && less(x, y) && less(y, z) ==> less(x, z))
  }

  ghost predicate Sorted<T>(less: (T, T) -> bool, s: seq<T>) {
    forall i, j :: 0 <= i < j < |s| ==> less(s[i], s[j])
  }

  ghost predicate SameElements<T(!new)>(s: seq<T>, t: seq<T>) {
    forall x :: x in s <==> x in t
  }

  ghost predicate NoDuplicates<T>(s: seq<T>) {
    forall i, j :: 0 <= i < j < |s| ==> s[i] != s[j]
  }

  lemma SortedNoDuplicates<T>(less: (T, T) -> bool, s: seq<T>)
    requires StrictTotalOn(less, s) && Sorted(less, s)
    ensures NoDuplicates(s)
  {
    forall i, j | 0 <= i < j < |s|
      ensures s[i] != s[j]
    {
      assert less(s[i], s[j]) && s[i] in s;
    }
  }

  lemma SubsetIsSmaller<T>(s: set<T>, t: set<T>)
    requires s <= t
    ensures |s| <= |t|
  {
    assert t == s + (t - s);
  }

  lemma FirstIsMember<T>(s: seq<T>)
    requires s != []
    ensures s[0] in s
  {
  }

  /** Two sorted arrangements of the same elements are the same list. */
  lemma {:induction false} SortedIsUnique<T(!new)>(less: (T, T) -> bool, s: seq<T>, t: seq<T>)
    requires StrictTotalOn(less, s) && Sorted(less, s) && Sorted(less, t) && SameElements(s, t)
    ensures s == t
    decreases |s|
  {
    if s == [] {
      if t != [] {
        FirstIsMember(t);
      }
    } else {
      assert s[0] in s;
      SameHead(less, s, t);
      var s', t' := s[1..], t[1..];
      forall x
        ensures x in s' <==> x in t'
      {
        TailMembership(less, s, x);
        assert forall y :: y in t ==> y in s;
        TailMembership(less, t, x);
      }
      SortedIsUnique(less, s', t');
      assert s == [s[0]] + s' && t == [t[0]] + t';
    }
  }

  lemma SameHead<T(!new)>(less: (T, T) -> bool, s: seq<T>, t: seq<T>)
    requires s != [] && t != []
    requires StrictTotalOn(less, s) && Sorted(less, s) && Sorted(less, t) && SameElements(s, t)
    ensures s[0] == t[0]
  {
    assert s[0] in s && t[0] in t;
    HeadIsLeast(less, s, t[0]);
    HeadIsLeast(less, t, s[0]);
  }

  lemma HeadIsLeast<T>(less: (T, T) -> bool, s: seq<T>, x: T)
    requires Sorted(less, s) && x in s
    ensures x == s[0] || less(s[0], x)
  {
  }

  lemma TailMembership<T>(less: (T, T) -> bool, s: seq<T>, x: T)
    requires s != [] && StrictTotalOn(less, s) && Sorted(less, s)
    ensures x in s[1..] <==> x in s && x != s[0]
  {
    SortedNoDuplicates(less, s);
    if x in s && x != s[0] {
      var i :| 0 <= i < |s| && s[i] == x;
      assert s[1..][i - 1] == x;
    }
  }

  /** Stands for `sort.Slice` with a comparator that is strict and total on the elements. */
  method SortSlice<T>(less: (T, T) -> bool, s: seq<T>) returns (r: seq<T>)
    requires StrictTotalOn(less, s) && NoDuplicates(s)
    ensures Sorted(less, r) && multiset(r) == multiset(s)
    ensures |r| == |s| && forall x :: x in r <==> x in s
  {
    r := [];
    for n := 0 to |s|
      invariant Sorted(less, r) && multiset(r) == multiset(s[..n])
      invariant |r| == n && forall x :: x in r <==> x in s[..n]
    {
      var i := 0;
      while i < |r| && less(r[i], s[n])
        invariant 0 <= i <= |r|
        invariant forall k :: 0 <= k < i ==> less(r[k], s[n])
      {
        i := i + 1;
      }
      InsertKeepsSorted(less, s, r, s[n], i, n);
      assert s[..n + 1] == s[..n] + [s[n]];
      assert r == r[..i] + r[i..];
      r := r[..i] + [s[n]] + r[i..];
    }
    assert s[..|s|] == s;
  }

  lemma InsertKeepsSorted<T>(less: (T, T) -> bool, s: seq<T>, r: seq<T>, x: T, i: nat, n: nat)
    requires StrictTotalOn(less, s) && NoDuplicates(s) && n < |s| && x == s[n]
    requires Sorted(less, r) && forall y :: y in r <==> y in s[..n]
    requires i <= |r| && (forall k :: 0 <= k < i ==> less(r[k], x)) && (i < |r| ==> !less(r[i], x))
    ensures Sorted(less, r[..i] + [x] + r[i..])
  {
    assert x in s;
    assert x !in s[..n];
    assert forall y :: y in r ==> y in s[..n] && y in s;
    forall k | i <= k < |r|
      ensures less(x, r[k])
    {
      assert r[k] in r && r[i] in r;
      assert less(x, r[i]);
      assert k > i ==> less(r[i], r[k]);
    }
  }

  // ---- string order: byte-lexicographic, as Go's < on strings ----

  predicate StringLess(a: string, b: string) {
    b != [] && (a == [] || a[0] < b[0] || (a[0] == b[0] && StringLess(a[1..], b[1..])))
  }

  lemma {:induction false} StringLessIrreflexive(a: string)
    ensures !StringLess(a, a)
    decreases |a|
  {
    if a != [] {
      StringLessIrreflexive(a[1..]);
    }
  }

  lemma {:induction false} StringLessTotal(a: string, b: string)
    requires a != b
    ensures StringLess(a, b) || StringLess(b, a)
    decreases |a|
  {
    if a != [] && b != [] && a[0] == b[0] {
      assert a == [a[0]] + a[1..] && b == [b[0]] + b[1..];
      StringLessTotal(a[1..], b[1..]);
    }
  }

  lemma {:induction false} StringLessTransitive(a: string, b: string, c: string)
    requires StringLess(a, b) && StringLess(b, c)
    ensures StringLess(a, c)
    decreases |a|
  {
    if a != [] && a[0] == b[0] && b[0] == c[0] {
      StringLessTransitive(a[1..], b[1..], c[1..]);
    }
  }

  /** a stands before b in the dictionary: it is a proper beginning of b, or has the smaller character where
      they first part. */
  ghost predicate Precedes(a: string, b: string) {
    exists k: nat :: PartAt(a, b, k)
  }

  ghost predicate PartAt(a: string, b: string, k: nat) {
    k <= |a| && k < |b| && a[..k] == b[..k] && (k == |a| || a[k] < b[k])
  }

  lemma {:induction false} StringLessIff(a: string, b: string)
    ensures StringLess(a, b) <==> Precedes(a, b)
    decreases |a|
  {
    if b != [] && (a == [] || a[0] != b[0]) {
      if a == [] || a[0] < b[0] {
        assert PartAt(a, b, 0);
      }
    } else if b != [] {
      StringLessIff(a[1..], b[1..]);
      if k: nat :| PartAt(a[1..], b[1..], k) {
        assert a[..k + 1] == [a[0]] + a[1..][..k] && b[..k + 1] == [b[0]] + b[1..][..k];
        assert PartAt(a, b, k + 1);
      }
      if k: nat :| PartAt(a, b, k) {
        assert a[1..][..k - 1] == a[..k][1..] && b[1..][..k - 1] == b[..k][1..];
        assert PartAt(a[1..], b[1..], k - 1);
      }
    }
  }

  /** `enumeration` is any order in which a Go map with these keys can be ranged over. */
  ghost predicate Enumerates<K(!new)>(enumeration: seq<K>, keys: set<K>) {
    NoDuplicates(enumeration) && forall k :: k in enumeration <==> k in keys
  }

  lemma {:induction false} EnumerationLength<K(!new)>(enumeration: seq<K>, keys: set<K>)
    requires Enumerates(enumeration, keys)
    ensures |enumeration| == |keys|
    decreases |enumeration|
  {
    if enumeration == [] {
      assert keys == {};
    } else {
      var k := enumeration[0];
      assert forall x :: x in enumeration[1..] <==> x in enumeration && x != k;
      EnumerationLength(enumeration[1..], keys - {k});
    }
  }
}
