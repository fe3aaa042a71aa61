/** Behavioural features: the syscall window of each process, trigram rarity over the window, and
    the entropy of the types of a node's outgoing edges. */
module Features {
  import opened EdgeLists
  import opened Provenance
  import opened SlidingWindow

  const WINDOW := 50

  function Trigram(a: string, b: string, c: string): string {
    a + "," + b + "," + c
  }

  /** The rarity of the trigram that starts at position i: 1 if it was never seen in the baseline. */
  function RarityAt(baseline: map<string, real>, w: seq<string>, i: nat): real
    requires i + 2 < |w|
  {
    var t := Trigram(w[i], w[i + 1], w[i + 2]);
    if t in baseline then 1.0 - baseline[t] else 1.0
  }

  ghost function RaritySum(baseline: map<string, real>, w: seq<string>, n: nat): real
    requires n + 2 <= |w|
  {
    if n == 0 then 0.0 else RaritySum(baseline, w, n - 1) + RarityAt(baseline, w, n - 1)
  }

  ghost predicate IsFrequencyTable(baseline: map<string, real>) {
    forall t :: t in baseline ==> 0.0 <= baseline[t] <= 1.0
  }

  lemma {:induction false} RaritySumRange(baseline: map<string, real>, w: seq<string>, n: nat)
    requires n + 2 <= |w| && IsFrequencyTable(baseline)
    ensures 0.0 <= RaritySum(baseline, w, n) <= n as real
  {
    if n > 0 {
      RaritySumRange(baseline, w, n - 1);
    }
  }

  /** How often the first n trigrams occur in the baseline, in all; those it does not know, never. */
  ghost function FrequencySum(baseline: map<string, real>, w: seq<string>, n: nat): real
    requires n + 2 <= |w|
  {
    if n == 0 then 0.0
    else
      var t := w[n - 1] + "," + w[n] + "," + w[n + 1];
      FrequencySum(baseline, w, n - 1) + if t in baseline then baseline[t] else 0.0
  }

  /** Rarity is what frequency leaves of 1, trigram for trigram. */
  lemma {:induction false} RarityComplements(baseline: map<string, real>, w: seq<string>, n: nat)
    requires n + 2 <= |w|
    ensures RaritySum(baseline, w, n) + FrequencySum(baseline, w, n) == n as real
  {
    if n > 0 {
      RarityComplements(baseline, w, n - 1);
    }
  }

  /** Trigrams the baseline never saw are worth 1 each. */
  lemma {:induction false} UnseenIsRare(baseline: map<string, real>, w: seq<string>, n: nat)
    requires n + 2 <= |w| && forall i :: 0 <= i < n ==> Trigram(w[i], w[i + 1], w[i + 2]) !in baseline
    ensures RaritySum(baseline, w, n) == n as real
  {
    if n > 0 {
      UnseenIsRare(baseline, w, n - 1);
      assert Trigram(w[n - 1], w[n], w[n + 1]) !in baseline;
    }
  }

  /** What occurs more often is less rare. */
  lemma {:induction false} CommonerIsLessRare(a: map<string, real>, b: map<string, real>, w: seq<string>, n: nat)
    requires n + 2 <= |w| && IsFrequencyTable(b) && forall t :: t in a ==> t in b && a[t] <= b[t]
    ensures RaritySum(b, w, n) <= RaritySum(a, w, n)
  {
    if n > 0 {
      CommonerIsLessRare(a, b, w, n - 1);
    }
  }

  lemma FirstCommaDecides(a: string, x: string, b: string, y: string)
    requires |a| < |b| && ',' !in b
    ensures a + "," + x != b + "," + y
  {
    assert (a + "," + x)[|a|] == ',' && (b + "," + y)[|a|] == b[|a|];
  }

  lemma FirstCommaSplits(a: string, x: string, b: string, y: string)
    requires ',' !in a && ',' !in b && a + "," + x == b + "," + y
    ensures a == b && x == y
  {
    var s := a + "," + x;
    if |a| < |b| {
      FirstCommaDecides(a, x, b, y);
    } else if |b| < |a| {
      FirstCommaDecides(b, y, a, x);
    }
    assert s[..|a|] == a && s[|a| + 1..] == x && s[..|b|] == b && s[|b| + 1..] == y;
  }

  /** Names without commas make different trigrams unless they are the same. */
  lemma TrigramInjective(a: string, b: string, c: string, x: string, y: string, z: string)
    requires ',' !in a && ',' !in b && ',' !in x && ',' !in y && Trigram(a, b, c) == Trigram(x, y, z)
    ensures a == x && b == y && c == z
  {
    assert Trigram(a, b, c) == a + "," + (b + "," + c) && Trigram(x, y, z) == x + "," + (y + "," + z);
    FirstCommaSplits(a, b + "," + c, x, y + "," + z);
    FirstCommaSplits(b, c, y, z);
  }

  // ---- entropy ----

  /** Laws of a logarithm: what the bounds below need to know of math.Log2, for which c is log2(e). */
  ghost predicate LogLaws(lg: real -> real, c: real) {
    && c > 0.0
    && (forall x: real, y: real :: x > 0.0 && y > 0.0 ==> TurnsProductIntoSum(lg, x, y))
    && (forall x: real :: x > 0.0 ==> lg(x) <= c * (x - 1.0))
  }

  ghost predicate TurnsProductIntoSum(lg: real -> real, x: real, y: real) {
    lg(x * y) == lg(x) + lg(y)
  }

  ghost function CountKind(edges: seq<Edge>, k: EdgeType): nat {
    if edges == [] then 0
    else CountKind(edges[..|edges| - 1], k) + if edges[|edges| - 1].kind == k then 1 else 0
  }

  /** One term of Shannon entropy, -p lg p for p = count/total; nothing for an absent type. */
  ghost function Term(lg: real -> real, count: nat, total: nat): real
    requires total > 0
  {
    if count == 0 then 0.0
    else
      var p := count as real / total as real;
      -(p * lg(p))
  }

  ghost function TermOver(lg: real -> real, edges: seq<Edge>, k: EdgeType, done: set<EdgeType>): real {
    if edges == [] || k !in done then 0.0 else Term(lg, CountKind(edges, k), |edges|)
  }

  ghost function Entropy(lg: real -> real, edges: seq<Edge>, done: set<EdgeType>): real {
    TermOver(lg, edges, Exec, done) + TermOver(lg, edges, OpenRead, done) + TermOver(lg, edges, OpenWrite, done) +
    TermOver(lg, edges, Connect, done) + TermOver(lg, edges, Fork, done)
  }

  ghost const ALL_KINDS: set<EdgeType> := {Exec, OpenRead, OpenWrite, Connect, Fork}

  lemma EntropyOfAbsent(lg: real -> real, edges: seq<Edge>, done: set<EdgeType>)
    requires forall k :: k in done ==> CountKind(edges, k) == 0
    ensures Entropy(lg, edges, done) == 0.0
  {
  }

  lemma PositiveShare(count: nat, total: nat)
    requires 0 < count && 0 < total
    ensures count as real / total as real > 0.0
  {
  }

  lemma EntropyStep(lg: real -> real, edges: seq<Edge>, done: set<EdgeType>, k: EdgeType, count: nat, total: nat, p: real)
    requires edges != [] && k !in done
    requires count == CountKind(edges, k) && count > 0 && total == |edges| && p == count as real / total as real
    ensures p > 0.0 && Entropy(lg, edges, done + {k}) == Entropy(lg, edges, done) - p * lg(p)
  {
    PositiveShare(count, total);
    assert Term(lg, count, total) == -(p * lg(p));
    match k
    case Exec =>
    case OpenRead =>
    case OpenWrite =>
    case Connect =>
    case Fork =>
  }

  /** The five counts add up to the out-degree. */
  lemma {:induction false} CountsSumToDegree(edges: seq<Edge>)
    ensures CountKind(edges, Exec) + CountKind(edges, OpenRead) + CountKind(edges, OpenWrite) +
            CountKind(edges, Connect) + CountKind(edges, Fork) == |edges|
  {
    if edges != [] {
      CountsSumToDegree(edges[..|edges| - 1]);
    }
  }

  lemma LgBelowOne(lg: real -> real, c: real, p: real)
    requires LogLaws(lg, c) && 0.0 < p <= 1.0
    ensures lg(p) <= 0.0
  {
    assert c * (p - 1.0) <= 0.0;
  }

  lemma ShareRange(sum: real, n: nat)
    requires n > 0 && 0.0 <= sum <= n as real
    ensures 0.0 <= sum / n as real <= 1.0
  {
    var q := sum / n as real;
    assert q * n as real == sum;
  }

  /** What one term of the entropy can be at most, given its share of the edges. */
  ghost function Cap(l: real, c: real, share: real): real {
    share * l + c * (0.2 - share)
  }

  /** Gibbs' inequality, one term: -p lg p is at most p lg 5 + c(1/5 - p). */
  lemma ShareBound(lg: real -> real, c: real, p: real)
    requires LogLaws(lg, c) && 0.0 < p <= 1.0
    ensures 0.0 <= -(p * lg(p)) <= Cap(lg(5.0), c, p)
  {
    LgBelowOne(lg, c, p);
    assert p * lg(p) <= 0.0;
    var y := 0.2 / p;
    assert y > 0.0 && y * p == 0.2;
    LgOfQuotient(lg, c, p, y);
    var slack := c * (y - 1.0) - lg(y);
    assert p * slack >= 0.0;
    assert p * slack == c * (y * p - p) - p * lg(y);
    assert p * lg(y) == -(p * lg(5.0)) - p * lg(p);
  }

  lemma TermBound(lg: real -> real, c: real, count: nat, total: nat, p: real)
    requires LogLaws(lg, c) && count <= total && total > 0 && p == count as real / total as real
    ensures 0.0 <= Term(lg, count, total) <= Cap(lg(5.0), c, p)
  {
    if count == 0 {
      assert p == 0.0;
      assert c * 0.2 >= 0.0;
    } else {
      PositiveShare(count, total);
      ShareRange(count as real, total);
      ShareBound(lg, c, p);
    }
  }

  lemma LgOfQuotient(lg: real -> real, c: real, p: real, y: real)
    requires LogLaws(lg, c) && p > 0.0 && y > 0.0 && y * p == 0.2
    ensures lg(y) == -lg(5.0) - lg(p)
  {
    assert TurnsProductIntoSum(lg, 1.0, 1.0) && TurnsProductIntoSum(lg, y, p) && TurnsProductIntoSum(lg, 5.0, 0.2);
  }

  /** The entropy of five edge types lies between 0 and lg 5. */
  lemma EntropyRange(lg: real -> real, c: real, edges: seq<Edge>)
    requires LogLaws(lg, c)
    ensures 0.0 <= Entropy(lg, edges, ALL_KINDS)
    ensures edges != [] ==> Entropy(lg, edges, ALL_KINDS) <= lg(5.0)
  {
    CountsSumToDegree(edges);
    if edges != [] {
      FiveTermsBound(lg, c, CountKind(edges, Exec), CountKind(edges, OpenRead), CountKind(edges, OpenWrite),
                     CountKind(edges, Connect), CountKind(edges, Fork), |edges|);
    }
  }

  lemma FiveTermsBound(lg: real -> real, c: real, i: nat, j: nat, k: nat, m: nat, n: nat, total: nat)
    requires LogLaws(lg, c) && i + j + k + m + n == total && total > 0
    ensures 0.0 <= Term(lg, i, total) + Term(lg, j, total) + Term(lg, k, total) + Term(lg, m, total) + Term(lg, n, total)
            <= lg(5.0)
  {
    var d := total as real;
    var p, q, r, s, t := i as real / d, j as real / d, k as real / d, m as real / d, n as real / d;
    TermBound(lg, c, i, total, p);
    TermBound(lg, c, j, total, q);
    TermBound(lg, c, k, total, r);
    TermBound(lg, c, m, total, s);
    TermBound(lg, c, n, total, t);
    AddFractions(i as real, j as real, k as real, m as real, n as real, d);
    CapsAddUp(lg(5.0), c, p, q, r, s, t);
  }

  lemma AddFractions(a: real, b: real, x: real, y: real, z: real, d: real)
    requires d > 0.0 && a + b + x + y + z == d
    ensures a / d + b / d + x / d + y / d + z / d == 1.0
  {
    assert a / d + b / d == (a + b) / d;
    assert x / d + y / d == (x + y) / d;
    assert (a + b) / d + (x + y) / d == (a + b + x + y) / d;
    assert (a + b + x + y) / d + z / d == (a + b + x + y + z) / d;
  }

  lemma CapsAddUp(l: real, c: real, p: real, q: real, r: real, s: real, t: real)
    requires p + q + r + s + t == 1.0
    ensures Cap(l, c, p) + Cap(l, c, q) + Cap(l, c, r) + Cap(l, c, s) + Cap(l, c, t) == l
  {
    TwoCaps(l, c, p, q);
    TwoCaps(l, c, r, s);
    var pq, rs := p + q, r + s;
    assert pq * l + rs * l + t * l == (pq + rs + t) * l;
    assert c * (0.4 - pq) + c * (0.4 - rs) + c * (0.2 - t) == c * (1.0 - (pq + rs + t));
  }

  lemma TwoCaps(l: real, c: real, p: real, q: real)
    ensures Cap(l, c, p) + Cap(l, c, q) == (p + q) * l + c * (0.4 - (p + q))
  {
    assert p * l + q * l == (p + q) * l;
    assert c * (0.2 - p) + c * (0.2 - q) == c * (0.4 - (p + q));
  }

  class FeatureExtractor {
    const graph: CausalGraph
    const baseline: map<string, real>
    var windows: map<nat, seq<string>>
    ghost var recorded: map<nat, seq<string>>

    /** Every window holds exactly the last 50 syscalls recorded for its process. */
    ghost predicate Valid()
      reads this
    {
      forall pid :: Listed(windows, pid) == LastOf(Listed(recorded, pid), WINDOW)
    }

    constructor (g: CausalGraph, trigrams: map<string, real>)
      ensures Valid() && graph == g && baseline == trigrams && recorded == map[]
    {
      graph, baseline, windows, recorded := g, trigrams, map[], map[];
    }

    method RecordSyscall(pid: nat, syscallType: string)
      requires Valid()
      modifies this
      ensures Valid()
      ensures recorded == old(recorded)[pid := Listed(old(recorded), pid) + [syscallType]]
      ensures windows.Keys == old(windows).Keys + {pid}
    {
      var w := Listed(windows, pid);
      w := w + [syscallType];
      if |w| > WINDOW {
        w := w[|w| - WINDOW..];
      }
      ghost var all := Listed(recorded, pid) + [syscallType];
      LastOfAppend(Listed(recorded, pid), syscallType, WINDOW);
      assert w == LastOf(all, WINDOW);
      windows := windows[pid := w];
      recorded := recorded[pid := all];
      forall q
        ensures Listed(windows, q) == LastOf(Listed(recorded, q), WINDOW)
      {
        assert q != pid ==> Listed(windows, q) == Listed(old(windows), q) && Listed(recorded, q) == Listed(old(recorded), q);
      }
    }

    /** The mean rarity over the trigrams of the last 50 syscalls; 0 with fewer than three. */
    method NgramRarity(pid: nat) returns (rarity: real)
      requires Valid()
      ensures var w := LastOf(Listed(recorded, pid), WINDOW);
              rarity == if |w| < 3 then 0.0 else RaritySum(baseline, w, |w| - 2) / (|w| - 2) as real
      ensures IsFrequencyTable(baseline) ==> 0.0 <= rarity <= 1.0
    {
      var window := Listed(windows, pid);
      if |window| < 3 {
        return 0.0;
      }
      var totalRarity, count := 0.0, 0;
      for i := 0 to |window| - 2
        invariant totalRarity == RaritySum(baseline, window, i) && count == i
      {
        var trigram := Trigram(window[i], window[i + 1], window[i + 2]);
        if trigram in baseline {
          totalRarity := totalRarity + (1.0 - baseline[trigram]);
        } else {
          totalRarity := totalRarity + 1.0;
        }
        count := count + 1;
      }
      rarity := totalRarity / count as real;
      if IsFrequencyTable(baseline) {
        RaritySumRange(baseline, window, count);
        ShareRange(totalRarity, count);
      }
    }

    method FanOutDegree(nodeID: string) returns (degree: nat)
      requires graph.Valid()
      ensures degree == |From(graph.edges, nodeID)|
    {
      degree := |Listed(graph.outEdges, nodeID)|;
    }

    /** Shannon entropy of the edge types, whatever order the counts are ranged over. */
    method EdgeTypeEntropy(nodeID: string, lg: real -> real) returns (entropy: real)
      requires graph.Valid()
      ensures entropy == Entropy(lg, From(graph.edges, nodeID), ALL_KINDS)
    {
      var edges := Listed(graph.outEdges, nodeID);
      if |edges| == 0 {
        return 0.0;
      }
      var counts: map<EdgeType, nat> := map[];
      for i := 0 to |edges|
        invariant forall k :: (if k in counts then counts[k] else 0) == CountKind(edges[..i], k)
        invariant forall k :: k in counts ==> counts[k] > 0
      {
        var k := edges[i].kind;
        assert edges[..i + 1][..i] == edges[..i];
        counts := counts[k := (if k in counts then counts[k] else 0) + 1];
      }
      assert edges[..|edges|] == edges;
      var total := |edges|;
      entropy := 0.0;
      var rest := counts.Keys;
      EntropyOfAbsent(lg, edges, ALL_KINDS - rest);
      while rest != {}
        invariant rest <= counts.Keys
        invariant entropy == Entropy(lg, edges, ALL_KINDS - rest)
        decreases rest
      {
        var k :| k in rest;
        var count := counts[k];
        var p := count as real / total as real;
        EntropyStep(lg, edges, ALL_KINDS - rest, k, count, total, p);
        if p > 0.0 {
          entropy := entropy - p * lg(p);
        }
        assert ALL_KINDS - (rest - {k}) == ALL_KINDS - rest + {k};
        rest := rest - {k};
      }
      assert ALL_KINDS - rest == ALL_KINDS;
    }
  }
}
