/** Parent links. A child has at most one parent, but nothing forces the links to be acyclic: the
    causal graph and the process table both take parent PIDs as the kernel reports them. */
module Forest {
  import opened Wrappers

  /** par[c] is the PID that c is listed under; a PID outside par is listed nowhere. */
  type Links = map<nat, nat>

  /** The k-th ancestor of p. */
  ghost function Up(par: Links, p: nat, k: nat): Option<nat>
    decreases k
  {
    if k == 0 then Some(p) else if p in par then Up(par, par[p], k - 1) else None
  }

  ghost predicate Below(par: Links, p: nat, a: nat) {
    exists k :: k >= 1 && Up(par, p, k) == Some(a)
  }

  ghost predicate OnCycle(par: Links, p: nat) { Below(par, p, p) }

  ghost predicate Acyclic(par: Links) { forall p :: p in par ==> !OnCycle(par, p) }

  ghost function Descendants(par: Links, a: nat): set<nat> {
    set p | p in par && Below(par, p, a)
  }

  lemma {:induction false} UpAdd(par: Links, p: nat, j: nat, k: nat)
    requires Up(par, p, j).Some?
    ensures Up(par, p, j + k) == Up(par, Up(par, p, j).value, k)
    decreases j
  {
    if j > 0 {
      UpAdd(par, par[p], j - 1, k);
    }
  }

  lemma {:induction false} UpLast(par: Links, p: nat, k: nat, a: nat) returns (c: nat)
    requires k >= 1 && Up(par, p, k) == Some(a)
    ensures Up(par, p, k - 1) == Some(c) && c in par && par[c] == a
    decreases k
  {
    if k == 1 {
      c := p;
      assert Up(par, par[p], 0) == Some(par[p]);
    } else {
      c := UpLast(par, par[p], k - 1, a);
    }
  }

  lemma {:induction false} UpNoneStays(par: Links, p: nat, j: nat, k: nat)
    requires Up(par, p, j) == None
    ensures Up(par, p, j + k) == None
    decreases j
  {
    if p in par {
      UpNoneStays(par, par[p], j - 1, k);
    }
  }

  lemma TwoDistancesMakeCycle(par: Links, p: nat, a: nat, i: nat, j: nat)
    requires i < j && Up(par, p, i) == Some(a) && Up(par, p, j) == Some(a)
    ensures OnCycle(par, a)
  {
    UpAdd(par, p, i, j - i);
  }

  /** Off a cycle, an ancestor sits at one distance only. */
  lemma UniqueDistance(par: Links, p: nat, a: nat, i: nat, j: nat)
    requires Up(par, p, i) == Some(a) && Up(par, p, j) == Some(a)
    requires !OnCycle(par, a)
    ensures i == j
  {
    if i < j {
      TwoDistancesMakeCycle(par, p, a, i, j);
    } else if j < i {
      TwoDistancesMakeCycle(par, p, a, j, i);
    }
  }

  /** Two children of a PID that is off every cycle have disjoint subtrees. */
  lemma SubtreesDisjoint(par: Links, a: nat, c: nat, d: nat, p: nat, i: nat, j: nat)
    requires c in par && par[c] == a && d in par && par[d] == a && !OnCycle(par, a)
    requires Up(par, p, i) == Some(c) && Up(par, p, j) == Some(d)
    ensures c == d && i == j
  {
    UpAdd(par, p, i, 1);
    UpAdd(par, p, j, 1);
    assert Up(par, a, 0) == Some(a);
    assert Up(par, c, 1) == Some(a) && Up(par, d, 1) == Some(a);
    UniqueDistance(par, p, a, i + 1, j + 1);
  }

  lemma CycleClimbs(par: Links, a: nat, c: nat)
    requires c in par && par[c] == a && OnCycle(par, c)
    ensures OnCycle(par, a)
  {
    var k :| k >= 1 && Up(par, c, k) == Some(c);
    assert Up(par, a, k - 1) == Some(c);
    UpAdd(par, a, k - 1, 1);
    assert Up(par, a, 0) == Some(a);
    assert Up(par, c, 1) == Some(a);
    assert Up(par, a, k) == Some(a);
  }

  lemma ChildOffCycle(par: Links, a: nat, c: nat)
    requires c in par && par[c] == a && !OnCycle(par, a)
    ensures !OnCycle(par, c)
  {
    if OnCycle(par, c) {
      CycleClimbs(par, a, c);
    }
  }

  /** The measure of every recursion down the links: a child has strictly fewer descendants. */
  lemma DescendantsShrink(par: Links, a: nat, c: nat)
    requires c in par && par[c] == a && !OnCycle(par, a)
    ensures Descendants(par, c) < Descendants(par, a)
    ensures c in Descendants(par, a)
  {
    ChildOffCycle(par, a, c);
    assert Up(par, a, 0) == Some(a);
    assert Up(par, c, 1) == Some(a);
    forall p | p in Descendants(par, c)
      ensures p in Descendants(par, a)
    {
      var k :| k >= 1 && Up(par, p, k) == Some(c);
      UpAdd(par, p, k, 1);
      assert Up(par, p, k + 1) == Some(a);
    }
    assert c !in Descendants(par, c);
  }

  // ---- when does a recursion over the children return? ----

  /** The recursion "for each child, recurse" started at a returns within call depth n. */
  ghost predicate Returns(par: Links, a: nat, n: nat)
    decreases n
  {
    n > 0 && forall c :: c in par && par[c] == a ==> Returns(par, c, n - 1)
  }

  lemma {:induction false} ReturnsLater(par: Links, a: nat, m: nat, n: nat)
    requires Returns(par, a, m) && m <= n
    ensures Returns(par, a, n)
    decreases m
  {
    forall c | c in par && par[c] == a
      ensures Returns(par, c, n - 1)
    {
      ReturnsLater(par, c, m - 1, n - 1);
    }
  }

  lemma {:induction false} ReturnsBelow(par: Links, a: nat, n: nat, p: nat, k: nat)
    requires Returns(par, a, n) && Up(par, p, k) == Some(a)
    ensures k < n && Returns(par, p, n - k)
    decreases k
  {
    if k > 0 {
      ReturnsBelow(par, a, n, par[p], k - 1);
    }
  }

  lemma {:induction false} NeverReturnsOnCycle(par: Links, a: nat, n: nat)
    requires OnCycle(par, a)
    ensures !Returns(par, a, n)
    decreases n
  {
    if Returns(par, a, n) {
      var k :| k >= 1 && Up(par, a, k) == Some(a);
      ReturnsBelow(par, a, n, a, k);
      NeverReturnsOnCycle(par, a, n - k);
    }
  }

  lemma {:induction false} ReturnsOffCycle(par: Links, a: nat)
    requires !OnCycle(par, a)
    ensures Returns(par, a, |Descendants(par, a)| + 1)
    decreases Descendants(par, a)
  {
    forall c | c in par && par[c] == a
      ensures Returns(par, c, |Descendants(par, a)|)
    {
      ChildOffCycle(par, a, c);
      DescendantsShrink(par, a, c);
      ReturnsOffCycle(par, c);
      ProperSubsetIsSmaller(Descendants(par, c), Descendants(par, a));
      ReturnsLater(par, c, |Descendants(par, c)| + 1, |Descendants(par, a)|);
    }
  }

  lemma ProperSubsetIsSmaller(s: set<nat>, t: set<nat>)
    requires s < t
    ensures |s| < |t|
  {
    assert t == s + (t - s);
    assert |t| == |s| + |t - s|;
  }

  /** A recursion over the children that keeps no visited set returns exactly when it starts off
      every cycle of the links. */
  lemma ReturnsIffOffCycle(par: Links, a: nat)
    ensures (exists n :: Returns(par, a, n)) <==> !OnCycle(par, a)
  {
    if OnCycle(par, a) {
      forall n
        ensures !Returns(par, a, n)
      {
        NeverReturnsOnCycle(par, a, n);
      }
    } else {
      ReturnsOffCycle(par, a);
      assert exists n :: Returns(par, a, n);
    }
  }

  // ---- adding a link ----

  lemma {:induction false} UpInLarger(par: Links, c: nat, a: nat, p: nat, k: nat)
    requires c !in par && Up(par, p, k).Some?
    ensures Up(par[c := a], p, k) == Up(par, p, k)
    decreases k
  {
    if k > 0 {
      UpInLarger(par, c, a, par[p], k - 1);
    }
  }

  lemma {:induction false} UpAvoidsOrMeets(par: Links, c: nat, a: nat, p: nat, k: nat) returns (m: nat)
    requires c !in par && Up(par[c := a], p, k).Some?
    ensures Up(par, p, k) == Up(par[c := a], p, k) || (m < k && Up(par, p, m) == Some(c))
    decreases k
  {
    m := 0;
    if k > 0 && p != c {
      var m' := UpAvoidsOrMeets(par, c, a, par[p], k - 1);
      m := m' + 1;
    }
  }

  lemma CycleInLarger(par: Links, c: nat, a: nat, p: nat)
    requires c !in par && OnCycle(par, p)
    ensures OnCycle(par[c := a], p)
  {
    var k :| k >= 1 && Up(par, p, k) == Some(p);
    UpInLarger(par, c, a, p, k);
  }

  lemma LinkClosesCycle(par: Links, c: nat, a: nat)
    requires c !in par && (a == c || Below(par, a, c))
    ensures OnCycle(par[c := a], c)
  {
    var grown := par[c := a];
    assert Up(grown, a, 0) == Some(a);
    assert Up(grown, c, 1) == Some(a);
    if a != c {
      var k :| k >= 1 && Up(par, a, k) == Some(c);
      UpInLarger(par, c, a, a, k);
      UpAdd(grown, c, 1, k);
    }
  }

  lemma NewCycleNeedsLoop(par: Links, c: nat, a: nat, p: nat)
    requires c !in par && OnCycle(par[c := a], p)
    ensures OnCycle(par, p) || a == c || Below(par, a, c)
  {
    var grown := par[c := a];
    var k :| k >= 1 && Up(grown, p, k) == Some(p);
    var m := UpAvoidsOrMeets(par, c, a, p, k);
    if Up(par, p, k) != Some(p) {
      UpInLarger(par, c, a, p, m);
      UpAdd(grown, p, k, m);
      UpAdd(grown, p, m, k);
      assert Up(grown, c, k) == Some(c);
      assert Up(grown, a, k - 1) == Some(c);
      var j := UpAvoidsOrMeets(par, c, a, a, k - 1);
      assert Up(par, a, k - 1) == Some(c) || Up(par, a, j) == Some(c);
    }
  }

  /** Listing a new PID c under a keeps the links acyclic exactly when a is neither c nor listed
      somewhere below c: a check the caller could make before the call. */
  lemma AddLinkAcyclicIff(par: Links, c: nat, a: nat)
    requires c !in par
    ensures Acyclic(par[c := a]) <==> Acyclic(par) && a != c && !Below(par, a, c)
  {
    var grown := par[c := a];
    if a == c || Below(par, a, c) {
      LinkClosesCycle(par, c, a);
    } else {
      forall p
        ensures OnCycle(grown, p) <==> OnCycle(par, p)
      {
        if OnCycle(par, p) {
          CycleInLarger(par, c, a, p);
        }
        if OnCycle(grown, p) {
          NewCycleNeedsLoop(par, c, a, p);
        }
      }
      if Acyclic(par) && OnCycle(grown, c) {
        CycleStaysInLinks(par, c);
      }
      assert forall p :: p in grown <==> p in par || p == c;
    }
  }

  lemma CycleStaysInLinks(par: Links, p: nat)
    requires OnCycle(par, p)
    ensures p in par
  {
    var k :| k >= 1 && Up(par, p, k) == Some(p);
  }

  // ---- roots ----

  /** p hangs below a PID that is listed nowhere. */
  ghost predicate Rooted(par: Links, p: nat) {
    exists k :: Up(par, p, k) == None
  }

  lemma {:induction false} CycleRepeats(par: Links, a: nat, m: nat, i: nat)
    requires m >= 1 && Up(par, a, m) == Some(a)
    ensures Up(par, a, m * i) == Some(a)
    decreases i
  {
    if i > 0 {
      CycleRepeats(par, a, m, i - 1);
      assert m * i == m * (i - 1) + m;
      UpAdd(par, a, m * (i - 1), m);
    }
  }

  lemma RootedMeetsNoCycle(par: Links, p: nat, k: nat, a: nat)
    requires Rooted(par, p) && Up(par, p, k) == Some(a)
    ensures !OnCycle(par, a)
  {
    if OnCycle(par, a) {
      var m :| m >= 1 && Up(par, a, m) == Some(a);
      var n: nat :| Up(par, p, n) == None;
      CycleRepeats(par, a, m, n);
      UpAdd(par, p, k, m * n);
      assert m * n >= n;
      UpNoneStays(par, p, n, k + m * n - n);
    }
  }

  /** Walking up either leaves the links or enters a cycle, because there are finitely many. */
  lemma WalkUp(par: Links, p: nat) returns (k: nat)
    ensures Up(par, p, k) == None || (Up(par, p, k).Some? && OnCycle(par, Up(par, p, k).value))
  {
    k := 0;
    var seen: set<nat> := {};
    while true
      invariant Up(par, p, k).Some?
      invariant seen <= par.Keys
      invariant forall q :: q in seen ==> exists i: nat :: i < k && Up(par, p, i) == Some(q)
      decreases par.Keys - seen
    {
      var q := Up(par, p, k).value;
      UpAdd(par, p, k, 1);
      if q !in par {
        k := k + 1;
        return;
      }
      if q in seen {
        var i: nat :| i < k && Up(par, p, i) == Some(q);
        UpAdd(par, p, i, k - i);
        assert Up(par, q, k - i) == Some(q);
        return;
      }
      assert Up(par, par[q], 0) == Some(par[q]);
      seen := seen + {q};
      k := k + 1;
    }
  }

  lemma RootedIffNoCycleAbove(par: Links, p: nat)
    ensures Rooted(par, p) <==> forall k :: Up(par, p, k).Some? ==> !OnCycle(par, Up(par, p, k).value)
  {
    if Rooted(par, p) {
      forall k | Up(par, p, k).Some?
        ensures !OnCycle(par, Up(par, p, k).value)
      {
        RootedMeetsNoCycle(par, p, k, Up(par, p, k).value);
      }
    } else {
      var k := WalkUp(par, p);
    }
  }

  lemma AcyclicIsRooted(par: Links, p: nat)
    requires Acyclic(par)
    ensures Rooted(par, p)
  {
    var k := WalkUp(par, p);
    if Up(par, p, k).Some? {
      CycleStaysInLinks(par, Up(par, p, k).value);
    }
  }

  /** A recursion that starts at the PIDs listed nowhere meets each PID at one root and one depth. */
  lemma OneRootOneDepth(par: Links, p: nat, r: nat, i: nat, s: nat, j: nat)
    requires Up(par, p, i) == Some(r) && r !in par && Up(par, p, j) == Some(s) && s !in par
    ensures r == s && i == j
  {
    UpAdd(par, p, i, 1);
    UpAdd(par, p, j, 1);
    if i < j {
      UpNoneStays(par, p, i + 1, j - i - 1);
    } else if j < i {
      UpNoneStays(par, p, j + 1, i - j - 1);
    }
  }

  /** The root a rooted PID hangs under. */
  lemma RootOf(par: Links, p: nat) returns (r: nat, k: nat)
    requires Rooted(par, p)
    ensures Up(par, p, k) == Some(r) && r !in par
  {
    var n: nat :| Up(par, p, n) == None;
    r, k := RootWithin(par, p, n);
  }

  lemma {:induction false} RootWithin(par: Links, p: nat, n: nat) returns (r: nat, k: nat)
    requires Up(par, p, n) == None
    ensures Up(par, p, k) == Some(r) && r !in par
    decreases n
  {
    if p !in par {
      r, k := p, 0;
    } else {
      r, k := RootWithin(par, par[p], n - 1);
      k := k + 1;
    }
  }

  /** Two PIDs that name each other as parent hang below no root, and a recursion from either never returns. */
  lemma MutualParents(par: Links, a: nat, b: nat)
    requires a in par && par[a] == b && b in par && par[b] == a
    ensures OnCycle(par, a) && !Rooted(par, a) && forall n :: !Returns(par, a, n)
  {
    assert Up(par, a, 0) == Some(a);
    assert Up(par, b, 1) == Some(a);
    assert Up(par, a, 2) == Some(a);
    if Rooted(par, a) {
      RootedMeetsNoCycle(par, a, 0, a);
    }
    forall n
      ensures !Returns(par, a, n)
    {
      NeverReturnsOnCycle(par, a, n);
    }
  }
}
