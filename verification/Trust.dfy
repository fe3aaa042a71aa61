/** Trust scores: a blend of the conformal p-value, the parent's trust and the technique severity. */
module Trust {
  import opened Conformal
  import opened Forest
  import opened NodeIds
  import opened Provenance
  import opened Wrappers

  datatype TrustBand = BandTrusted | BandSuspicious | BandHostile

  function BandOf(trust: real): TrustBand {
    if trust >= 70.0 then BandTrusted else if trust >= 30.0 then BandSuspicious else BandHostile
  }

  function ClampTrust(t: real): real {
    if t > 100.0 then 100.0 else if t < 0.0 then 0.0 else t
  }

  /** Two decimals, halves away from zero (the argument is never negative). */
  function RoundCents(t: real): real
    requires t >= 0.0
  {
    (t * 100.0 + 0.5).Floor as real / 100.0
  }

  function Blend(p: real, parentTrust: real, severity: real): real {
    0.5 * (p * 100.0) + 0.3 * (parentTrust * 0.85) - 0.2 * ((severity / 10.0) * 100.0)
  }

  function ComputeTrust(p: real, parentTrust: real, severity: real): real {
    RoundCents(ClampTrust(Blend(p, parentTrust, severity)))
  }

  lemma FloorMonotone(a: real, b: real)
    requires a <= b
    ensures a.Floor <= b.Floor
  {
  }

  lemma RoundCentsMonotone(t: real, u: real)
    requires 0.0 <= t <= u
    ensures RoundCents(t) <= RoundCents(u)
  {
    var a, b := t * 100.0 + 0.5, u * 100.0 + 0.5;
    FloorMonotone(a, b);
    assert a.Floor as real / 100.0 <= b.Floor as real / 100.0;
  }

  /** Rounding moves a trust by at most half a cent and leaves whole cents alone. */
  lemma RoundCentsNear(t: real)
    requires t >= 0.0
    ensures t - 0.005 < RoundCents(t) <= t + 0.005
  {
  }

  lemma ComputeTrustRange(p: real, parentTrust: real, severity: real)
    ensures 0.0 <= ComputeTrust(p, parentTrust, severity) <= 100.0
  {
    var t := ClampTrust(Blend(p, parentTrust, severity));
    RoundCentsMonotone(0.0, t);
    RoundCentsMonotone(t, 100.0);
  }

  /** More normal, better parentage, milder technique: never less trust. */
  lemma ComputeTrustMonotone(p: real, a: real, s: real, q: real, b: real, r: real)
    requires p <= q && a <= b && s >= r
    ensures ComputeTrust(p, a, s) <= ComputeTrust(q, b, r)
  {
    RoundCentsMonotone(ClampTrust(Blend(p, a, s)), ClampTrust(Blend(q, b, r)));
  }

  /** The inputs a scored process can present. */
  predicate ScoringInput(p: real, parentTrust: real, severity: real) {
    0.0 <= p <= 1.0 && 0.0 <= parentTrust <= 100.0 && 0.0 <= severity <= 10.0
  }

  /** The tier caps the trust, whatever the parent and the technique: a High decision is always
      hostile, a Medium one has trust at most 33, and nobody scored exceeds 75.5. All three caps
      are attained, by a fully trusted parent and no matched technique. */
  lemma TierCapsTrust(p: real, parentTrust: real, severity: real)
    requires ScoringInput(p, parentTrust, severity)
    ensures TierOf(p) == High ==>
              ComputeTrust(p, parentTrust, severity) <= 28.0 && BandOf(ComputeTrust(p, parentTrust, severity)) == BandHostile
    ensures TierOf(p) == Medium ==> ComputeTrust(p, parentTrust, severity) <= 33.0
    ensures ComputeTrust(p, parentTrust, severity) <= 75.5
  {
    var cap := if TierOf(p) == High then 0.05 else if TierOf(p) == Medium then 0.15 else 1.0;
    ComputeTrustMonotone(p, parentTrust, severity, cap, 100.0, 0.0);
    CapsAttained();
  }

  lemma CapsAttained()
    ensures ComputeTrust(0.05, 100.0, 0.0) == 28.0
    ensures ComputeTrust(0.15, 100.0, 0.0) == 33.0
    ensures ComputeTrust(1.0, 100.0, 0.0) == 75.5
  {
  }

  /** What each signal is worth: to within half a cent the trust is 50 per unit of p-value, 0.255 per
      point of the parent and 2 off per point of severity, and the bounds where that passes them. */
  lemma SignalsWeigh(p: real, parentTrust: real, severity: real)
    ensures var weighed := 50.0 * p + 0.255 * parentTrust - 2.0 * severity;
            var trust := ComputeTrust(p, parentTrust, severity);
            if weighed < 0.0 then trust == 0.0 else if weighed > 100.0 then trust == 100.0
            else weighed - 0.005 < trust <= weighed + 0.005
  {
    RoundCentsNear(ClampTrust(Blend(p, parentTrust, severity)));
  }

  /** A scored process is in the trusted band only if its p-value is at least 0.8899: scoring alone
      never restores the trust a fresh process starts with. */
  lemma TrustedNeedsHighPValue(p: real, parentTrust: real, severity: real)
    requires ScoringInput(p, parentTrust, severity) && BandOf(ComputeTrust(p, parentTrust, severity)) == BandTrusted
    ensures p >= 0.8899
  {
    ComputeTrustMonotone(p, parentTrust, severity, p, 100.0, 0.0);
    RoundCentsNear(ClampTrust(Blend(p, 100.0, 0.0)));
  }

  class TrustScorer {
    const graph: CausalGraph

    constructor (g: CausalGraph)
      ensures graph == g
    {
      graph := g;
    }

    /** The parent's current trust; full trust when no parent is recorded or tracked. */
    ghost function ParentTrust(pid: nat): real
      reads graph, graph.pidNode.Values
    {
      if pid in graph.pidNode && graph.pidNode[pid].ppid > 0 && graph.pidNode[pid].ppid in graph.pidNode
      then graph.pidNode[graph.pidNode[pid].ppid].trust
      else 100.0
    }

    lemma ParentTrustRange(pid: nat)
      requires graph.Valid() && graph.TrustInRange()
      ensures 0.0 <= ParentTrust(pid) <= 100.0
    {
      assert forall q :: q in graph.pidNode ==> graph.pidNode[q] == graph.nodes[ProcId(q)];
    }

    /** The process one link up lends its trust, and nobody else does. */
    lemma ParentLends(pid: nat)
      requires graph.Valid()
      ensures var parent := Up(LinksOf(graph.pidNode), pid, 1);
              match parent
              case None => ParentTrust(pid) == 100.0
              case Some(q) => ParentTrust(pid) == if q in graph.ProcessTrust() then graph.ProcessTrust()[q] else 100.0
    {
      assert Up(LinksOf(graph.pidNode), pid, 1) ==
             if pid in LinksOf(graph.pidNode) then Up(LinksOf(graph.pidNode), LinksOf(graph.pidNode)[pid], 0) else None;
    }

    /** Scores a process and pushes the result to the process and everything below it. A given parent
        trust of 0 stands for none given, and then the parent's current one counts. */
    method UpdateProcessTrust(pid: nat, p: real, given: real, severity: real) returns (trust: real)
      requires graph.Valid() && graph.TrustInRange() && !OnCycle(LinksOf(graph.pidNode), pid)
      modifies graph.pidNode.Values
      ensures trust == ComputeTrust(p, if given == 0.0 then old(ParentTrust(pid)) else given, severity)
      ensures graph.TrustInRange()
      ensures pid in graph.pidNode ==>
                && graph.pidNode[pid].trust == trust
                && Propagated(LinksOf(graph.pidNode), pid, trust, old(graph.ProcessTrust())[pid := trust], graph.ProcessTrust())
      ensures pid !in graph.pidNode ==> graph.ProcessTrust() == old(graph.ProcessTrust())
    {
      var parentTrust := given;
      if parentTrust == 0.0 {
        parentTrust := 100.0;
        if pid in graph.pidNode && graph.pidNode[pid].ppid > 0 {
          var ppid := graph.pidNode[pid].ppid;
          if ppid in graph.pidNode {
            parentTrust := graph.pidNode[ppid].trust;
          }
        }
      }
      trust := ComputeTrust(p, parentTrust, severity);
      ComputeTrustRange(p, parentTrust, severity);
      forall q | q in graph.pidNode && ProcId(q) == ProcId(pid)
        ensures q == pid
      {
        ProcIdInjective(q, pid);
      }
      ProcNodeIsRegistered(graph.nodes, graph.pidNode, pid);
      graph.UpdateTrust(ProcId(pid), trust);
    }
  }
}
