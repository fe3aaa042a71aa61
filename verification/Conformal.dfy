/** Split conformal calibration: p-values by counting, response tiers from fixed thresholds, and the
    same tier computed a second time from the rounded p-value. */
module Conformal {
  import opened Ordering
  import opened Wrappers

  datatype Tier = Low | Medium | High

  function TierOf(p: real): Tier {
    if p > 0.15 then Low else if p > 0.05 then Medium else High
  }

  // ---- p-values ----

  /** How many calibration scores are at least as extreme as x (lower is more anomalous). */
  function CountAtMost(scores: seq<real>, x: real): nat {
    if scores == [] then 0
    else CountAtMost(scores[..|scores| - 1], x) + if scores[|scores| - 1] <= x then 1 else 0
  }

  function Clip(p: real): real {
    if p < 0.0 then 0.0 else if p > 1.0 then 1.0 else p
  }

  function Ratio(k: nat, n: nat): real
    requires n > 0
  {
    k as real / n as real
  }

  lemma RatioAtMost(k: nat, n: nat, alpha: real)
    requires n > 0
    ensures Ratio(k, n) <= alpha <==> k as real <= alpha * n as real
  {
    var q, d := Ratio(k, n), n as real;
    assert q * d == k as real;
    if q <= alpha {
      assert (alpha - q) * d >= 0.0;
    } else {
      assert (q - alpha) * d > 0.0;
    }
  }

  lemma RatioMonotone(a: nat, b: nat, n: nat)
    requires a <= b && n > 0
    ensures Ratio(a, n) <= Ratio(b, n)
  {
    RatioAtMost(a, n, Ratio(b, n));
    assert Ratio(b, n) * n as real == b as real;
  }

  /** The p-value of a new score; 0.5 when no calibration scores are loaded. */
  function PValue(calibration: Option<seq<real>>, x: real): real {
    if calibration == None || calibration.value == [] then 0.5
    else
      var n := |calibration.value|;
      Clip(Ratio(CountAtMost(calibration.value, x) + 1, n + 1))
  }

  ghost function IndicesAtMost(scores: seq<real>, x: real): set<nat> {
    set i | 0 <= i < |scores| && scores[i] <= x
  }

  lemma {:induction false} CountIsCardinality(scores: seq<real>, x: real)
    ensures CountAtMost(scores, x) == |IndicesAtMost(scores, x)| <= |scores|
  {
    if scores == [] {
      assert IndicesAtMost(scores, x) == {};
    } else {
      var n := |scores| - 1;
      CountIsCardinality(scores[..n], x);
      var rest := IndicesAtMost(scores[..n], x);
      assert IndicesAtMost(scores, x) == if scores[n] <= x then rest + {n} else rest;
    }
  }

  lemma {:induction false} CountSplits(s: seq<real>, t: seq<real>, x: real)
    ensures CountAtMost(s + t, x) == CountAtMost(s, x) + CountAtMost(t, x)
  {
    if t == [] {
      assert s + t == s;
    } else {
      var n := |t| - 1;
      assert (s + t)[..|s + t| - 1] == s + t[..n];
      CountSplits(s, t[..n], x);
    }
  }

  lemma {:induction false} CountMonotone(scores: seq<real>, x: real, y: real)
    requires x <= y
    ensures CountAtMost(scores, x) <= CountAtMost(scores, y)
  {
    if scores != [] {
      CountMonotone(scores[..|scores| - 1], x, y);
    }
  }

  /** The number of n scores that may be flagged at level alpha. */
  ghost function Allowance(n: nat, alpha: real): int {
    (alpha * n as real).Floor
  }

  lemma AllowanceRange(n: nat, alpha: real)
    requires 0.0 <= alpha
    ensures 0 <= Allowance(n, alpha) && (alpha <= 1.0 ==> Allowance(n, alpha) <= n)
  {
    var d := n as real;
    assert alpha * d >= 0.0;
    if alpha <= 1.0 {
      assert (1.0 - alpha) * d >= 0.0;
    }
  }

  /** With calibration scores loaded, clipping never acts: p lies in [1/(n+1), 1]. */
  lemma PValueIsRatio(scores: seq<real>, x: real, k: nat, n: nat)
    requires scores != [] && k == CountAtMost(scores, x) + 1 && n == |scores| + 1
    ensures PValue(Some(scores), x) == Ratio(k, n)
    ensures Ratio(1, n) <= Ratio(k, n) <= 1.0
  {
    CountIsCardinality(scores, x);
    RatioMonotone(0, 1, n);
    RatioMonotone(1, k, n);
    RatioAtMost(k, n, 1.0);
  }

  lemma PValueAtMost(scores: seq<real>, x: real, k: nat, n: nat, alpha: real)
    requires scores != [] && k == CountAtMost(scores, x) + 1 && n == |scores| + 1
    ensures PValue(Some(scores), x) <= alpha <==> k <= Allowance(n, alpha)
  {
    PValueIsRatio(scores, x, k, n);
    RatioAtMost(k, n, alpha);
  }

  /** A score that is less anomalous never gets a smaller p-value. */
  lemma PValueMonotone(calibration: Option<seq<real>>, x: real, y: real)
    requires x <= y
    ensures PValue(calibration, x) <= PValue(calibration, y)
  {
    if calibration != None && calibration.value != [] {
      var scores := calibration.value;
      CountMonotone(scores, x, y);
      var j, k, n := CountAtMost(scores, x) + 1, CountAtMost(scores, y) + 1, |scores| + 1;
      PValueIsRatio(scores, x, j, n);
      PValueIsRatio(scores, y, k, n);
      RatioMonotone(j, k, n);
    }
  }

  // ---- validity by counting ----

  function Without(s: seq<real>, i: nat): seq<real>
    requires i < |s|
  {
    s[..i] + s[i + 1..]
  }

  /** The p-value of score i calibrated on all the others. */
  function HeldOut(s: seq<real>, i: nat): real
    requires i < |s|
  {
    PValue(Some(Without(s, i)), s[i])
  }

  ghost function Flagged(s: seq<real>, alpha: real): set<nat> {
    set i | 0 <= i < |s| && HeldOut(s, i) <= alpha
  }

  lemma CountOneMore(s: seq<real>, y: real, x: real)
    requires y <= x
    ensures CountAtMost(s + [y], x) == CountAtMost(s, x) + 1
  {
    assert (s + [y])[..|s|] == s;
  }

  lemma CountAround(front: seq<real>, y: real, back: seq<real>, x: real)
    requires y <= x
    ensures CountAtMost(front + [y] + back, x) == CountAtMost(front + back, x) + 1
  {
    CountSplits(front + [y], back, x);
    CountSplits(front, back, x);
    CountOneMore(front, y, x);
  }

  lemma PutBack(s: seq<real>, i: nat)
    requires i < |s|
    ensures s[..i] + [s[i]] + s[i + 1..] == s
  {
  }

  lemma CountBackIn(s: seq<real>, i: nat)
    requires i < |s|
    ensures CountAtMost(s, s[i]) == CountAtMost(Without(s, i), s[i]) + 1
  {
    PutBack(s, i);
    CountAround(s[..i], s[i], s[i + 1..], s[i]);
  }

  ghost function LowRanked(s: seq<real>, m: nat): set<nat> {
    set i | 0 <= i < |s| && CountAtMost(s, s[i]) <= m
  }

  lemma {:induction false} Largest(s: seq<real>, c: set<nat>) returns (j: nat)
    requires c != {} && forall i :: i in c ==> i < |s|
    ensures j in c && forall i :: i in c ==> s[i] <= s[j]
    decreases c
  {
    j :| j in c;
    assert forall i :: i in c ==> i == j || i in c - {j};
    if c - {j} != {} {
      var k := Largest(s, c - {j});
      if s[k] > s[j] {
        j := k;
      }
    }
  }

  lemma {:induction false} Smallest(s: seq<real>, c: set<nat>) returns (j: nat)
    requires c != {} && forall i :: i in c ==> i < |s|
    ensures j in c && forall i :: i in c ==> s[j] <= s[i]
    decreases c
  {
    j :| j in c;
    assert forall i :: i in c ==> i == j || i in c - {j};
    if c - {j} != {} {
      var k := Smallest(s, c - {j});
      if s[k] < s[j] {
        j := k;
      }
    }
  }

  lemma AtMostMLowRanked(s: seq<real>, m: nat)
    ensures |LowRanked(s, m)| <= m
  {
    var c := LowRanked(s, m);
    if c != {} {
      var j := Largest(s, c);
      CountIsCardinality(s, s[j]);
      SubsetIsSmaller(c, IndicesAtMost(s, s[j]));
    }
  }

  lemma AtLeastMLowRanked(s: seq<real>, m: nat)
    requires m <= |s| && NoDuplicates(s)
    ensures |LowRanked(s, m)| >= m
  {
    var low := LowRanked(s, m);
    var high := set i | 0 <= i < |s| && CountAtMost(s, s[i]) > m;
    if high != {} {
      var j := Smallest(s, high);
      CountIsCardinality(s, s[j]);
      SubsetIsSmaller(IndicesAtMost(s, s[j]), low + {j});
    } else if m > 0 {
      assert 0 in low;
      var j := Largest(s, low);
      CountIsCardinality(s, s[j]);
      CountAll(s, s[j]);
      assert IndicesAtMost(s, s[j]) == low;
    }
  }

  lemma {:induction false} CountAll(scores: seq<real>, x: real)
    requires forall i :: 0 <= i < |scores| ==> scores[i] <= x
    ensures CountAtMost(scores, x) == |scores|
  {
    if scores != [] {
      CountAll(scores[..|scores| - 1], x);
    }
  }

  /** Holding a score out of the calibration set and counting it back in is ranking it among all. */
  lemma FlaggedIffLowRank(s: seq<real>, alpha: real, i: nat)
    requires |s| >= 2 && i < |s|
    ensures HeldOut(s, i) <= alpha <==> CountAtMost(s, s[i]) <= Allowance(|s|, alpha)
  {
    CountBackIn(s, i);
    PValueAtMost(Without(s, i), s[i], CountAtMost(s, s[i]), |s|, alpha);
  }

  lemma FlaggedIsLowRanked(s: seq<real>, alpha: real)
    requires |s| >= 2 && alpha >= 0.0
    ensures Allowance(|s|, alpha) >= 0 && Flagged(s, alpha) == LowRanked(s, Allowance(|s|, alpha))
  {
    AllowanceRange(|s|, alpha);
    forall i | 0 <= i < |s|
      ensures HeldOut(s, i) <= alpha <==> CountAtMost(s, s[i]) <= Allowance(|s|, alpha)
    {
      FlaggedIffLowRank(s, alpha, i);
    }
  }

  /** Score each of n+1 exchangeable benign scores against the other n: whatever the scores, at most
      alpha(n+1) of them, rounded down, are flagged at level alpha. */
  lemma FalsePositivesBounded(s: seq<real>, alpha: real)
    requires |s| >= 2 && alpha >= 0.0
    ensures |Flagged(s, alpha)| <= Allowance(|s|, alpha)
  {
    FlaggedIsLowRanked(s, alpha);
    AtMostMLowRanked(s, Allowance(|s|, alpha));
  }

  /** The bound is attained at every level whenever no two scores tie. */
  lemma FalsePositivesExact(s: seq<real>, alpha: real)
    requires |s| >= 2 && 0.0 <= alpha <= 1.0 && NoDuplicates(s)
    ensures |Flagged(s, alpha)| == Allowance(|s|, alpha)
  {
    FalsePositivesBounded(s, alpha);
    FlaggedIsLowRanked(s, alpha);
    AllowanceRange(|s|, alpha);
    AtLeastMLowRanked(s, Allowance(|s|, alpha));
  }

  /** At most 5% of benign scores come out High and at most 15% come out Medium or High. */
  lemma TierRatesBounded(s: seq<real>)
    requires |s| >= 2
    ensures 20 * |set i | 0 <= i < |s| && TierOf(HeldOut(s, i)) == High| <= |s|
    ensures 20 * |set i | 0 <= i < |s| && TierOf(HeldOut(s, i)) != Low| <= 3 * |s|
  {
    FalsePositivesBounded(s, 0.05);
    FalsePositivesBounded(s, 0.15);
    assert (set i | 0 <= i < |s| && TierOf(HeldOut(s, i)) == High) == Flagged(s, 0.05);
    assert (set i | 0 <= i < |s| && TierOf(HeldOut(s, i)) != Low) == Flagged(s, 0.15);
  }

  // ---- the tier is computed twice ----

  /** r millionths is a nearest value to k/n, whichever way ties go. */
  predicate IsNearestMillionth(k: nat, n: nat, r: int) {
    2 * (r * n - 1000000 * k) <= n && 2 * (1000000 * k - r * n) <= n
  }

  predicate TiesToEven(k: nat, n: nat, r: int) {
    2 * (r * n - 1000000 * k) == n || 2 * (1000000 * k - r * n) == n ==> r % 2 == 0
  }

  /** Python's round(k/n, 6) in millionths: to nearest, ties to even. */
  function RoundedMillionths(k: nat, n: nat): (r: nat)
    requires n > 0
    ensures IsNearestMillionth(k, n, r)
    ensures TiesToEven(k, n, r)
  {
    var q, rest := 1000000 * k / n, 1000000 * k % n;
    assert q * n + rest == 1000000 * k && (q + 1) * n == q * n + n;
    if 2 * rest < n || (2 * rest == n && q % 2 == 0) then q else q + 1
  }

  /** The tier the sidecar computes from the exact p-value k/n. */
  function SidecarTier(k: nat, n: nat): Tier
    requires n > 0
  {
    TierOf(Ratio(k, n))
  }

  /** The tier the engine computes from the p-value it received. */
  function EngineTier(r: nat): Tier {
    TierOf(r as real / 1000000.0)
  }

  /** k/n exceeds the threshold t/20 by no more than half a millionth. */
  predicate JustAbove(k: nat, n: nat, t: nat) {
    0 < 20 * k - t * n && 100000 * (20 * k - t * n) <= n
  }

  lemma ThresholdExact(k: nat, n: nat, t: nat)
    requires n > 0
    ensures Ratio(k, n) > t as real / 20.0 <==> 20 * k > t * n
  {
    RatioAtMost(k, n, t as real / 20.0);
    assert t as real * n as real == (t * n) as real;
    assert (t as real / 20.0) * n as real == (t * n) as real / 20.0;
  }

  lemma StepUp(a: int, b: int, n: nat)
    requires a > b
    ensures a * n >= b * n + n
  {
    assert (a - b - 1) * n >= 0;
  }

  lemma StaysDown(a: int, b: int, n: nat)
    requires a <= b
    ensures a * n <= b * n
  {
    assert (b - a) * n >= 0;
  }

  /** A rounded p-value passes a threshold only if the exact one does, and misses it only if the
      exact one is just above it; with ties to even, it then always misses it. */
  lemma ThresholdRounded(k: nat, n: nat, r: int, t: nat)
    requires n > 0 && IsNearestMillionth(k, n, r)
    ensures r > 50000 * t ==> 20 * k > t * n
    ensures r <= 50000 * t && 20 * k > t * n ==> JustAbove(k, n, t)
    ensures JustAbove(k, n, t) && TiesToEven(k, n, r) ==> r <= 50000 * t
  {
    var m := 50000 * t;
    assert m * n == 50000 * (t * n) && (m + 1) * n == m * n + n;
    if r > m + 1 {
      StepUp(r, m + 1, n);
    } else if r == m + 1 {
      assert r % 2 == 1;
    } else {
      StaysDown(r, m, n);
    }
    RoundedLinear(k, n, r, m, r * n, t * n);
  }

  lemma RoundedLinear(k: nat, n: nat, r: int, m: int, rn: int, tn: int)
    requires n > 0 && 2 * (rn - 1000000 * k) <= n && 2 * (1000000 * k - rn) <= n
    requires r > m + 1 ==> rn >= 50000 * tn + 2 * n
    requires r == m + 1 ==> rn == 50000 * tn + n
    requires r <= m ==> rn <= 50000 * tn
    ensures r > m ==> 20 * k > tn
    ensures r <= m && 20 * k > tn ==> 100000 * (20 * k - tn) <= n
    ensures 0 < 20 * k - tn && 100000 * (20 * k - tn) <= n && r > m ==> r == m + 1 && 2 * (rn - 1000000 * k) == n
  {
  }

  /** The two tiers agree on exactly those p-values that are not just above a threshold. */
  lemma TiersAgreeIff(k: nat, n: nat)
    requires n > 0
    ensures SidecarTier(k, n) == EngineTier(RoundedMillionths(k, n)) <==> !JustAbove(k, n, 1) && !JustAbove(k, n, 3)
  {
    var r := RoundedMillionths(k, n);
    ThresholdExact(k, n, 1);
    ThresholdExact(k, n, 3);
    ThresholdRounded(k, n, r, 1);
    ThresholdRounded(k, n, r, 3);
    assert r as real / 1000000.0 > 0.05 <==> r > 50000;
    assert r as real / 1000000.0 > 0.15 <==> r > 150000;
  }

  /** With fewer than 100000 scores they agree on every p-value, however ties are rounded. */
  lemma TiersAgreeBelow100000(k: nat, n: nat, r: nat)
    requires 0 < n < 100000 && IsNearestMillionth(k, n, r)
    ensures SidecarTier(k, n) == EngineTier(r)
  {
    ThresholdExact(k, n, 1);
    ThresholdExact(k, n, 3);
    ThresholdRounded(k, n, r, 1);
    ThresholdRounded(k, n, r, 3);
    assert r as real / 1000000.0 > 0.05 <==> r > 50000;
    assert r as real / 1000000.0 > 0.15 <==> r > 150000;
  }

  /** Past that they can differ: p = 5001/100019 is Medium, its rounded value 0.05 is High. */
  lemma TiersCanDiffer()
    ensures SidecarTier(5001, 100019) == Medium && EngineTier(RoundedMillionths(5001, 100019)) == High
  {
    ThresholdExact(5001, 100019, 1);
    ThresholdExact(5001, 100019, 3);
    ThresholdRounded(5001, 100019, RoundedMillionths(5001, 100019), 1);
  }
}
