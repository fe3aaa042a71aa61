/** The "recent evidence" lists of the process tree and the inspector: most frequent first. */
module EvidenceRanking {
  import opened Ordering

  datatype Evidence = Evidence(name: string, count: int)

  predicate EvidenceLess(a: Evidence, b: Evidence) {
    if a.count != b.count then a.count > b.count else StringLess(a.name, b.name)
  }

  lemma EvidenceLessIsStrictTotal(s: seq<Evidence>)
    ensures StrictTotalOn(EvidenceLess, s)
  {
    forall x | x in s
      ensures !EvidenceLess(x, x)
    {
      StringLessIrreflexive(x.name);
    }
    forall x, y | x in s && y in s && x != y
      ensures EvidenceLess(x, y) || EvidenceLess(y, x)
    {
      if x.count == y.count {
        StringLessTotal(x.name, y.name);
      }
    }
    forall x, y, z | x in s && y in s && z in s && EvidenceLess(x, y) && EvidenceLess(y, z)
      ensures EvidenceLess(x, z)
    {
      if x.count == y.count && y.count == z.count {
        StringLessTransitive(x.name, y.name, z.name);
      }
    }
  }

  /** n was seen more often than m, or as often and comes before it in the dictionary. */
  ghost predicate Outranks(values: map<string, int>, n: string, m: string)
    requires n in values && m in values
  {
    values[n] > values[m] || (values[n] == values[m] && Precedes(n, m))
  }

  lemma OutranksIff(values: map<string, int>, n: string, m: string)
    requires n in values && m in values
    ensures Outranks(values, n, m) <==> EvidenceLess(Evidence(n, values[n]), Evidence(m, values[m]))
  {
    StringLessIff(n, m);
  }

  lemma OutranksOneWay(values: map<string, int>, n: string, m: string)
    requires n in values && m in values
    ensures !(Outranks(values, n, m) && Outranks(values, m, n))
  {
    OutranksIff(values, n, m);
    OutranksIff(values, m, n);
    EvidenceLessIsStrictTotal([Evidence(n, values[n]), Evidence(m, values[m])]);
    StringLessIrreflexive(n);
  }

  /** `out` lists the `limit` names with the highest counts, equal counts by name. */
  ghost predicate IsTop(out: seq<string>, values: map<string, int>, limit: nat) {
    && |out| == (if |values| < limit then |values| else limit)
    && (forall n :: n in out ==> n in values)
    && (forall i, j :: 0 <= i < j < |out| ==> Outranks(values, out[i], out[j]))
    && (forall n, m :: n in out && m in values && m !in out ==> Outranks(values, n, m))
  }

  method TopEvidence(values: map<string, int>, limit: nat, enumeration: seq<string>) returns (out: seq<string>)
    requires Enumerates(enumeration, values.Keys)
    ensures IsTop(out, values, limit)
  {
    var items: seq<Evidence> := [];
    for i := 0 to |enumeration|
      invariant |items| == i
      invariant forall k :: 0 <= k < i ==> items[k] == Evidence(enumeration[k], values[enumeration[k]])
    {
      items := items + [Evidence(enumeration[i], values[enumeration[i]])];
    }
    EvidenceLessIsStrictTotal(items);
    var sorted := SortSlice(EvidenceLess, items);
    EnumerationLength(enumeration, values.Keys);
    ghost var all := sorted;
    if |sorted| > limit {
      sorted := sorted[..limit];
    }
    out := [];
    for i := 0 to |sorted|
      invariant |out| == i
      invariant forall k :: 0 <= k < i ==> out[k] == sorted[k].name
    {
      out := out + [sorted[i].name];
    }
    TopIsTop(values, enumeration, items, all, out, limit);
  }

  /** The first `limit` names of the sorted items are the top ones. */
  lemma TopIsTop(values: map<string, int>, enumeration: seq<string>, items: seq<Evidence>, all: seq<Evidence>, out: seq<string>,
                 limit: nat)
    requires Enumerates(enumeration, values.Keys) && |items| == |enumeration| == |values|
    requires forall k :: 0 <= k < |items| ==> items[k] == Evidence(enumeration[k], values[enumeration[k]])
    requires Sorted(EvidenceLess, all) && |all| == |items| && forall e :: e in all <==> e in items
    requires |out| == (if |all| < limit then |all| else limit) && forall k :: 0 <= k < |out| ==> out[k] == all[k].name
    ensures IsTop(out, values, limit)
  {
    forall k | 0 <= k < |all|
      ensures all[k].name in values && all[k] == Evidence(all[k].name, values[all[k].name])
    {
      assert all[k] in items;
    }
    forall i, j | 0 <= i < j < |out|
      ensures Outranks(values, out[i], out[j])
    {
      OutranksIff(values, out[i], out[j]);
    }
    forall n, m | n in out && m in values && m !in out
      ensures Outranks(values, n, m)
    {
      OutranksIff(values, n, m);
      var e := Evidence(m, values[m]);
      assert m in enumeration;
      assert e in items && e in all;
      var j :| 0 <= j < |all| && all[j] == e;
      assert forall k :: 0 <= k < |out| ==> all[k].name in out;
    }
  }

  /** The list depends on the counts alone, not on the order the map was ranged over. */
  lemma TopIsUnique(a: seq<string>, b: seq<string>, values: map<string, int>, limit: nat)
    requires IsTop(a, values, limit) && IsTop(b, values, limit)
    ensures a == b
  {
    var rank := (n: string, m: string) =>
      n in values && m in values && EvidenceLess(Evidence(n, values[n]), Evidence(m, values[m]));
    RankIsStrictTotal(rank, values, a);
    RankIsStrictTotal(rank, values, b);
    TopIsRanked(rank, a, values, limit);
    TopIsRanked(rank, b, values, limit);
    SortedNoDuplicates(rank, a);
    SortedNoDuplicates(rank, b);
    SameTopMembers(a, b, values, limit);
    SameTopMembers(b, a, values, limit);
    SortedIsUnique(rank, a, b);
  }

  lemma TopIsRanked(rank: (string, string) -> bool, a: seq<string>, values: map<string, int>, limit: nat)
    requires IsTop(a, values, limit)
    requires forall n, m ::
      rank(n, m) <==> n in values && m in values && EvidenceLess(Evidence(n, values[n]), Evidence(m, values[m]))
    ensures Sorted(rank, a)
  {
    forall i, j | 0 <= i < j < |a|
      ensures rank(a[i], a[j])
    {
      assert Outranks(values, a[i], a[j]);
      OutranksIff(values, a[i], a[j]);
    }
  }

  lemma RankIsStrictTotal(rank: (string, string) -> bool, values: map<string, int>, s: seq<string>)
    requires forall n :: n in s ==> n in values
    requires forall n, m ::
      rank(n, m) <==> n in values && m in values && EvidenceLess(Evidence(n, values[n]), Evidence(m, values[m]))
    ensures StrictTotalOn(rank, s)
  {
    var items := seq(|s|, i requires 0 <= i < |s| => Evidence(s[i], values[s[i]]));
    EvidenceLessIsStrictTotal(items);
    forall n | n in s
      ensures Evidence(n, values[n]) in items
    {
      var i :| 0 <= i < |s| && s[i] == n;
      assert items[i] == Evidence(n, values[n]);
    }
  }

  lemma SameTopMembers(a: seq<string>, b: seq<string>, values: map<string, int>, limit: nat)
    requires IsTop(a, values, limit) && IsTop(b, values, limit) && NoDuplicates(a) && NoDuplicates(b)
    ensures forall n :: n in a ==> n in b
  {
    forall n | n in a
      ensures n in b
    {
      if n !in b {
        var m := SomeOther(a, b, n);
        OutranksOneWay(values, n, m);
      }
    }
  }

  lemma SomeOther(a: seq<string>, b: seq<string>, n: string) returns (m: string)
    requires NoDuplicates(a) && NoDuplicates(b) && |a| == |b| && n in a && n !in b
    ensures m in b && m !in a
  {
    var sa, sb := set x | x in a, set x | x in b;
    EnumerationLength(a, sa);
    EnumerationLength(b, sb);
    if sb <= sa {
      assert sb <= sa - {n};
      SubsetIsSmaller(sb, sa - {n});
    }
    m :| m in sb && m !in sa;
  }
}
