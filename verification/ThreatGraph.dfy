/** The threat graph of the dashboard: live threats, up to two live ancestors of each, and one node
    and one edge for every attack pattern recorded of a visible process. */
module ThreatGraph {
  import opened AttackPatterns
  import opened NodeIds
  import opened Ordering
  import opened Store
  import opened Verdicts

  datatype NodeKind = ProcessShown | ParentProcess | Threat

  datatype GraphNode = GraphNode(id: string, kind: NodeKind, trust: real, pid: nat, status: Status, eventCount: nat)

  datatype EdgeKind = ForkExec | AttackPatternEdge

  datatype GraphEdge = GraphEdge(source: string, target: string, kind: EdgeKind, critical: bool)

  type Procs = map<nat, ProcessRecord>

  ghost function Threats(procs: Procs, live: set<nat>): set<nat> {
    set p | p in live && p in procs && procs[p].IsGraphThreat()
  }

  /** a is the parent of p, or the parent of p's parent, through live PPIDs. */
  ghost predicate WithinTwoHops(procs: Procs, live: set<nat>, p: nat, a: nat)
    requires p in procs && live <= procs.Keys
  {
    var q := procs[p].ppid;
    q > 0 && q in live && (a == q || (procs[q].ppid > 0 && procs[q].ppid in live && a == procs[q].ppid))
  }

  ghost function Context(procs: Procs, live: set<nat>, threats: set<nat>): set<nat>
    requires live <= procs.Keys && threats <= live
  {
    set a, p | a in live && p in threats && WithinTwoHops(procs, live, p, a) :: a
  }

  function PatternNodeId(pat: AttackPattern): string {
    "pattern:" + pat.id
  }

  function ProcessNodeOf(pid: nat, r: ProcessRecord, isContext: bool): GraphNode {
    GraphNode(ProcId(pid), if r.IsGraphThreat() then Threat else if isContext then ParentProcess else ProcessShown,
              r.trustScore, pid, r.status, r.syscallCount)
  }

  function PatternNodeOf(r: ProcessRecord, pat: AttackPattern): GraphNode {
    GraphNode(PatternNodeId(pat), Threat, r.trustScore, r.pid, r.status, 1)
  }

  function PatternEdgeOf(pid: nat, pat: AttackPattern): GraphEdge {
    GraphEdge(ProcId(pid), PatternNodeId(pat), AttackPatternEdge, true)
  }

  function ForkEdgeOf(pid: nat, r: ProcessRecord): GraphEdge {
    GraphEdge(ProcId(r.ppid), ProcId(pid), ForkExec, r.IsGraphThreat())
  }

  // ---- what the graph must contain ----

  /** One node per visible process. */
  ghost function ProcessNodes(procs: Procs, pids: seq<nat>, context: set<nat>): seq<GraphNode>
    requires forall p :: p in pids ==> p in procs
  {
    seq(|pids|, i requires 0 <= i < |pids| => ProcessNodeOf(pids[i], procs[pids[i]], pids[i] in context))
  }

  ghost function PatternNodesOf(r: ProcessRecord, n: nat): seq<GraphNode>
    requires n <= |r.attackPatterns|
  {
    seq(n, i requires 0 <= i < n => PatternNodeOf(r, r.attackPatterns[i]))
  }

  ghost function PatternEdgesOf(r: ProcessRecord, pid: nat, n: nat): seq<GraphEdge>
    requires n <= |r.attackPatterns|
  {
    seq(n, i requires 0 <= i < n => PatternEdgeOf(pid, r.attackPatterns[i]))
  }

  /** One node per pattern of a visible process, process by process. */
  ghost function PatternNodes(procs: Procs, pids: seq<nat>): seq<GraphNode>
    requires forall p :: p in pids ==> p in procs
  {
    if pids == [] then []
    else
      var r := procs[pids[|pids| - 1]];
      PatternNodes(procs, pids[..|pids| - 1]) + PatternNodesOf(r, |r.attackPatterns|)
  }

  ghost function ForkEdges(procs: Procs, visible: set<nat>, pid: nat): seq<GraphEdge>
    requires pid in procs
  {
    if procs[pid].ppid in visible && procs[pid].ppid != pid then [ForkEdgeOf(pid, procs[pid])] else []
  }

  /** One fork edge per visible process with a visible parent, and one edge per pattern. */
  ghost function GraphEdges(procs: Procs, visible: set<nat>, pids: seq<nat>): seq<GraphEdge>
    requires forall p :: p in pids ==> p in procs
  {
    if pids == [] then []
    else
      var pid := pids[|pids| - 1];
      var r := procs[pid];
      GraphEdges(procs, visible, pids[..|pids| - 1]) + ForkEdges(procs, visible, pid) +
      PatternEdgesOf(r, pid, |r.attackPatterns|)
  }

  // ---- node IDs ----

  lemma PatternNodeIdsDiffer(pat: AttackPattern, other: AttackPattern)
    requires PatternNodeId(pat) == PatternNodeId(other)
    ensures pat.id == other.id
  {
    assert PatternNodeId(pat)[8..] == pat.id && PatternNodeId(other)[8..] == other.id;
  }

  lemma ProcessAndPatternIdsDiffer(pid: nat, pat: AttackPattern)
    ensures ProcId(pid) != PatternNodeId(pat)
  {
    assert ProcId(pid)[1] == 'r' && PatternNodeId(pat)[1] == 'a';
  }

  /** IDs of the nodes for the first n visible processes and the first k patterns of the next one. */
  ghost predicate IsPatternId(procs: Procs, pids: seq<nat>, n: nat, k: nat, id: string)
    requires forall p :: p in pids ==> p in procs
  {
    exists i, j :: 0 <= i < |pids| && 0 <= j < |procs[pids[i]].attackPatterns| && (i < n || (i == n && j < k)) &&
                   PatternNodeId(procs[pids[i]].attackPatterns[j]) == id
  }

  ghost predicate ListsSound(procs: Procs) {
    forall p :: p in procs ==> OwnList(procs[p].attackPatterns, p)
  }

  lemma PatternIdIsNew(procs: Procs, pids: seq<nat>, n: nat, k: nat)
    requires ListsSound(procs) && NoDuplicates(pids) && (forall p :: p in pids ==> p in procs)
    requires n < |pids| && k < |procs[pids[n]].attackPatterns|
    ensures !IsPatternId(procs, pids, n, k, PatternNodeId(procs[pids[n]].attackPatterns[k]))
  {
    var pat := procs[pids[n]].attackPatterns[k];
    forall i, j | 0 <= i < |pids| && 0 <= j < |procs[pids[i]].attackPatterns| && (i < n || (i == n && j < k))
      ensures PatternNodeId(procs[pids[i]].attackPatterns[j]) != PatternNodeId(pat)
    {
      var other := procs[pids[i]].attackPatterns[j];
      assert OwnList(procs[pids[i]].attackPatterns, pids[i]) && OwnList(procs[pids[n]].attackPatterns, pids[n]);
      if PatternNodeId(other) == PatternNodeId(pat) {
        PatternNodeIdsDiffer(other, pat);
        PatternIdInjective(other.patternType, pids[i], pat.patternType, pids[n]);
      }
    }
  }

  /** Everything already in the node set is a visible process or an earlier pattern. */
  ghost predicate NodeSetSound(nodeSet: set<string>, procs: Procs, pids: seq<nat>, n: nat, k: nat)
    requires forall p :: p in pids ==> p in procs
  {
    forall id :: id in nodeSet ==> (exists i :: 0 <= i < |pids| && ProcId(pids[i]) == id) || IsPatternId(procs, pids, n, k, id)
  }

  lemma NextPatternIsNew(nodeSet: set<string>, procs: Procs, pids: seq<nat>, n: nat, k: nat)
    requires ListsSound(procs) && NoDuplicates(pids) && (forall p :: p in pids ==> p in procs)
    requires n < |pids| && k < |procs[pids[n]].attackPatterns| && NodeSetSound(nodeSet, procs, pids, n, k)
    ensures var id := PatternNodeId(procs[pids[n]].attackPatterns[k]);
            id !in nodeSet && NodeSetSound(nodeSet + {id}, procs, pids, n, k + 1)
  {
    var pat := procs[pids[n]].attackPatterns[k];
    PatternIdIsNew(procs, pids, n, k);
    forall i | 0 <= i < |pids|
      ensures ProcId(pids[i]) != PatternNodeId(pat)
    {
      ProcessAndPatternIdsDiffer(pids[i], pat);
    }
    assert IsPatternId(procs, pids, n, k + 1, PatternNodeId(pat));
    forall id | IsPatternId(procs, pids, n, k, id)
      ensures IsPatternId(procs, pids, n, k + 1, id)
    {
    }
  }

  lemma NodeSetNextProcess(nodeSet: set<string>, procs: Procs, pids: seq<nat>, n: nat)
    requires (forall p :: p in pids ==> p in procs) && n < |pids|
    requires NodeSetSound(nodeSet, procs, pids, n, |procs[pids[n]].attackPatterns|)
    ensures NodeSetSound(nodeSet, procs, pids, n + 1, 0)
  {
  }

  predicate IntLess(a: nat, b: nat) { a < b }

  method FindLive(db: Store, alive: set<nat>) returns (live: set<nat>)
    ensures live == Live(db.processes, alive)
  {
    live := {};
    var rest := db.processes.Keys;
    while rest != {}
      invariant rest <= db.processes.Keys && live == Live(db.processes, alive) - rest
      decreases rest
    {
      var pid :| pid in rest;
      rest := rest - {pid};
      if !db.processes[pid].isKilled && pid != 0 && pid in alive {
        live := live + {pid};
      }
    }
  }

  /** The up to two live ancestors shown with one threat. */
  method TwoHops(procs: Procs, live: set<nat>, pid: nat) returns (ancestors: set<nat>)
    requires live <= procs.Keys && pid in procs
    ensures forall a :: a in ancestors <==> a in live && WithinTwoHops(procs, live, pid, a)
  {
    ancestors := {};
    var parentPID := procs[pid].ppid;
    if parentPID > 0 && parentPID in live {
      ancestors := ancestors + {parentPID};
      parentPID := procs[parentPID].ppid;
      if parentPID > 0 && parentPID in live {
        ancestors := ancestors + {parentPID};
      }
    }
  }

  lemma ThreatsGrow(procs: Procs, done: set<nat>, pid: nat)
    requires pid !in done && pid in procs
    ensures Threats(procs, done + {pid}) == Threats(procs, done) + if procs[pid].IsGraphThreat() then {pid} else {}
  {
  }

  lemma ContextGrows(procs: Procs, live: set<nat>, threats: set<nat>, pid: nat, ancestors: set<nat>)
    requires live <= procs.Keys && threats <= live && pid in live
    requires forall a :: a in ancestors <==> a in live && WithinTwoHops(procs, live, pid, a)
    ensures Context(procs, live, threats + {pid}) == Context(procs, live, threats) + ancestors
  {
  }

  /** The graph of the threats in `done`. */
  ghost predicate VisibleFor(
      procs: Procs, live: set<nat>, done: set<nat>, threats: set<nat>, context: set<nat>, visible: set<nat>)
    requires live <= procs.Keys
  {
    done <= live && threats == Threats(procs, done) && context == Context(procs, live, threats) && visible == threats + context
  }

  lemma VisibleGrows(
      procs: Procs, live: set<nat>, done: set<nat>, threats: set<nat>, context: set<nat>, visible: set<nat>, pid: nat,
      ancestors: set<nat>)
    requires live <= procs.Keys && VisibleFor(procs, live, done, threats, context, visible) && pid in live && pid !in done
    requires forall a :: a in ancestors <==> a in live && WithinTwoHops(procs, live, pid, a)
    ensures pid !in threats
    ensures if procs[pid].IsGraphThreat() then
              VisibleFor(procs, live, done + {pid}, threats + {pid}, context + ancestors, visible + {pid} + ancestors)
            else
              VisibleFor(procs, live, done + {pid}, threats, context, visible)
  {
    ThreatsGrow(procs, done, pid);
    ContextGrows(procs, live, threats, pid, ancestors);
  }

  /** Threats, and the context that explains them. */
  method FindVisible(procs: Procs, live: set<nat>) returns (visible: set<nat>, context: set<nat>, threatCount: nat)
    requires live <= procs.Keys
    ensures visible == Threats(procs, live) + context
    ensures context == Context(procs, live, Threats(procs, live))
    ensures threatCount == |Threats(procs, live)|
  {
    visible, context, threatCount := {}, {}, 0;
    ghost var threats: set<nat> := {};
    ghost var done: set<nat> := {};
    var rest := live;
    while rest != {}
      invariant rest <= live && done == live - rest
      invariant VisibleFor(procs, live, done, threats, context, visible) && threatCount == |threats|
      decreases rest
    {
      var pid :| pid in rest;
      var ancestors := TwoHops(procs, live, pid);
      VisibleGrows(procs, live, done, threats, context, visible, pid, ancestors);
      if procs[pid].IsGraphThreat() {
        threatCount := threatCount + 1;
        visible := visible + {pid} + ancestors;
        context := context + ancestors;
        threats := threats + {pid};
      }
      rest := rest - {pid};
      done := done + {pid};
    }
    assert done == live;
  }

  method Ascending(s: set<nat>) returns (sorted: seq<nat>)
    ensures Sorted(IntLess, sorted) && NoDuplicates(sorted) && forall p :: p in sorted <==> p in s
  {
    var list: seq<nat> := [];
    var rest := s;
    while rest != {}
      invariant rest <= s && NoDuplicates(list) && forall p :: p in list <==> p in s - rest
      decreases rest
    {
      var p :| p in rest;
      rest := rest - {p};
      assert p !in list;
      list := list + [p];
    }
    sorted := SortSlice(IntLess, list);
    SortedNoDuplicates(IntLess, sorted);
  }

  lemma PatternsGrow(r: ProcessRecord, pid: nat, k: nat)
    requires k < |r.attackPatterns|
    ensures PatternNodesOf(r, k + 1) == PatternNodesOf(r, k) + [PatternNodeOf(r, r.attackPatterns[k])]
    ensures PatternEdgesOf(r, pid, k + 1) == PatternEdgesOf(r, pid, k) + [PatternEdgeOf(pid, r.attackPatterns[k])]
  {
  }

  method AddPatterns(procs: Procs, pids: seq<nat>, n: nat, nodes0: seq<GraphNode>, edges0: seq<GraphEdge>, nodeSet0: set<string>)
      returns (nodes: seq<GraphNode>, edges: seq<GraphEdge>, nodeSet: set<string>)
    requires ListsSound(procs) && NoDuplicates(pids) && (forall p :: p in pids ==> p in procs) && n < |pids|
    requires NodeSetSound(nodeSet0, procs, pids, n, 0)
    ensures NodeSetSound(nodeSet, procs, pids, n + 1, 0)
    ensures var r := procs[pids[n]];
            && nodes == nodes0 + PatternNodesOf(r, |r.attackPatterns|)
            && edges == edges0 + PatternEdgesOf(r, pids[n], |r.attackPatterns|)
  {
    nodes, edges, nodeSet := nodes0, edges0, nodeSet0;
    var r := procs[pids[n]];
    for k := 0 to |r.attackPatterns|
      invariant NodeSetSound(nodeSet, procs, pids, n, k)
      invariant nodes == nodes0 + PatternNodesOf(r, k) && edges == edges0 + PatternEdgesOf(r, pids[n], k)
    {
      var pattern := r.attackPatterns[k];
      var patternID := PatternNodeId(pattern);
      NextPatternIsNew(nodeSet, procs, pids, n, k);
      if patternID !in nodeSet {
        nodes := nodes + [PatternNodeOf(r, pattern)];
        nodeSet := nodeSet + {patternID};
      }
      edges := edges + [PatternEdgeOf(pids[n], pattern)];
      PatternsGrow(r, pids[n], k);
    }
    NodeSetNextProcess(nodeSet, procs, pids, n);
  }

  /** The whole graph is a function of the records and of who is alive. */
  method GetProductionGraph(db: Store, alive: set<nat>)
      returns (nodes: seq<GraphNode>, edges: seq<GraphEdge>, activeThreats: nat, totalPIDs: nat, pids: seq<nat>)
    requires db.Valid()
    ensures var procs, live := db.processes, Live(db.processes, alive);
            var threats := Threats(procs, live);
            var context := Context(procs, live, threats);
            && Sorted(IntLess, pids) && (forall p :: p in pids <==> p in threats + context)
            && nodes == ProcessNodes(procs, pids, context) + PatternNodes(procs, pids)
            && edges == GraphEdges(procs, threats + context, pids)
            && activeThreats == |threats| && totalPIDs == |live|
    ensures var procs, live := db.processes, Live(db.processes, alive);
            NodesExplained(procs, live, nodes) && EdgesExplained(procs, nodes, edges)
  {
    var procs := db.processes;
    var live := FindLive(db, alive);
    var visible, context, threatCount := FindVisible(procs, live);
    pids := Ascending(visible);
    OwnListsSound(procs, db.attackPatterns, db.verdicts);
    assert forall p :: p in pids ==> p in procs;
    var processNodes, nodeSet := AddProcesses(procs, pids, context);
    nodes, edges := AddAllPatterns(procs, pids, visible, processNodes, nodeSet);
    activeThreats, totalPIDs := threatCount, |live|;
    NodesAreExplained(procs, live, pids, context, nodes);
    EdgesAreExplained(procs, pids, visible, context, nodes, edges);
  }

  method AddProcesses(procs: Procs, pids: seq<nat>, context: set<nat>) returns (nodes: seq<GraphNode>, nodeSet: set<string>)
    requires forall p :: p in pids ==> p in procs
    ensures nodes == ProcessNodes(procs, pids, context) && NodeSetSound(nodeSet, procs, pids, 0, 0)
  {
    nodes, nodeSet := [], {};
    for n := 0 to |pids|
      invariant |nodes| == n && forall i :: 0 <= i < n ==> nodes[i] == ProcessNodeOf(pids[i], procs[pids[i]], pids[i] in context)
      invariant NodeSetSound(nodeSet, procs, pids, 0, 0)
    {
      var pid := pids[n];
      nodes := nodes + [ProcessNodeOf(pid, procs[pid], pid in context)];
      nodeSet := nodeSet + {ProcId(pid)};
    }
  }

  method AddAllPatterns(procs: Procs, pids: seq<nat>, visible: set<nat>, processNodes: seq<GraphNode>, processIds: set<string>)
      returns (nodes: seq<GraphNode>, edges: seq<GraphEdge>)
    requires ListsSound(procs) && NoDuplicates(pids) && (forall p :: p in pids ==> p in procs)
    requires NodeSetSound(processIds, procs, pids, 0, 0)
    ensures nodes == processNodes + PatternNodes(procs, pids) && edges == GraphEdges(procs, visible, pids)
  {
    nodes, edges := processNodes, [];
    var nodeSet := processIds;
    for n := 0 to |pids|
      invariant GraphUpTo(procs, pids, visible, n, processNodes, nodes, edges)
      invariant NodeSetSound(nodeSet, procs, pids, n, 0)
    {
      var pid := pids[n];
      ghost var nodes0, edges0 := nodes, edges;
      if procs[pid].ppid in visible && procs[pid].ppid != pid {
        edges := edges + [ForkEdgeOf(pid, procs[pid])];
      }
      assert edges == edges0 + ForkEdges(procs, visible, pid);
      nodes, edges, nodeSet := AddPatterns(procs, pids, n, nodes, edges, nodeSet);
      GraphGrows(procs, pids, visible, n, processNodes, nodes0, edges0);
    }
    assert pids[..|pids|] == pids;
  }

  ghost predicate GraphUpTo(
      procs: Procs, pids: seq<nat>, visible: set<nat>, n: nat, processNodes: seq<GraphNode>, nodes: seq<GraphNode>,
      edges: seq<GraphEdge>)
    requires n <= |pids| && forall p :: p in pids ==> p in procs
  {
    nodes == processNodes + PatternNodes(procs, pids[..n]) && edges == GraphEdges(procs, visible, pids[..n])
  }

  lemma GraphGrows(
      procs: Procs, pids: seq<nat>, visible: set<nat>, n: nat, processNodes: seq<GraphNode>, nodes: seq<GraphNode>,
      edges: seq<GraphEdge>)
    requires n < |pids| && (forall p :: p in pids ==> p in procs) && GraphUpTo(procs, pids, visible, n, processNodes, nodes, edges)
    ensures var pid, r := pids[n], procs[pids[n]];
            GraphUpTo(procs, pids, visible, n + 1, processNodes, nodes + PatternNodesOf(r, |r.attackPatterns|),
                      edges + ForkEdges(procs, visible, pid) + PatternEdgesOf(r, pid, |r.attackPatterns|))
  {
    assert pids[..n + 1][..n] == pids[..n];
  }

  lemma OwnListsSound(procs: Procs, all: seq<AttackPattern>, verdicts: map<nat, Verdict>)
    requires Consistent(procs, all, verdicts)
    ensures ListsSound(procs)
  {
    forall p | p in procs
      ensures OwnList(procs[p].attackPatterns, p)
    {
      OwnListOf(all, Own(procs), p);
    }
  }

  // ---- what the graph shows, said from the records alone ----

  ghost predicate Alarming(r: ProcessRecord) {
    r.attackPatterns != [] || r.trustScore < 50.0 || r.status == Suspicious || r.isPaused
  }

  /** a is the live parent of p, or that parent's live parent. */
  ghost predicate Explains(procs: Procs, live: set<nat>, a: nat, p: nat)
    requires p in procs && live <= procs.Keys
  {
    var parent := procs[p].ppid;
    a > 0 && a in live && (a == parent || (parent > 0 && parent in live && a == procs[parent].ppid))
  }

  ghost predicate IsShown(procs: Procs, live: set<nat>, p: nat)
    requires live <= procs.Keys
  {
    p in live && (Alarming(procs[p]) || exists t :: t in live && Alarming(procs[t]) && Explains(procs, live, p, t))
  }

  /** The node stands for a process and tells its record. */
  ghost predicate TellsProcess(procs: Procs, n: GraphNode) {
    && n.id == ProcId(n.pid) && n.pid in procs
    && n.trust == procs[n.pid].trustScore && n.status == procs[n.pid].status && n.eventCount == procs[n.pid].syscallCount
    && n.kind == if Alarming(procs[n.pid]) then Threat else ParentProcess
  }

  /** The node stands for a pattern recorded of its process. */
  ghost predicate TellsPattern(procs: Procs, n: GraphNode, pat: AttackPattern) {
    && n.pid in procs && pat in procs[n.pid].attackPatterns && n.id == "pattern:" + pat.id && n.kind == Threat
    && n.trust == procs[n.pid].trustScore && n.status == procs[n.pid].status && n.eventCount == 1
  }

  ghost predicate HasProcessNode(nodes: seq<GraphNode>, p: nat) {
    exists n :: n in nodes && n.id == ProcId(p) && n.pid == p
  }

  ghost predicate HasPatternNode(nodes: seq<GraphNode>, p: nat, pat: AttackPattern) {
    exists n :: n in nodes && n.id == "pattern:" + pat.id && n.pid == p
  }

  /** Exactly the alarming live processes and their live parents and grandparents have nodes, and exactly
      the patterns of a process that has one have theirs; each tells what the record says. */
  ghost predicate NodesExplained(procs: Procs, live: set<nat>, nodes: seq<GraphNode>)
    requires live <= procs.Keys
  {
    && (forall p :: HasProcessNode(nodes, p) <==> IsShown(procs, live, p))
    && (forall p, pat :: p in live && IsShown(procs, live, p) && pat in procs[p].attackPatterns ==> HasPatternNode(nodes, p, pat))
    && (forall n :: n in nodes ==> TellsProcess(procs, n) || exists pat :: TellsPattern(procs, n, pat))
  }

  ghost predicate Forks(e: GraphEdge, m: nat, n: nat) {
    e.kind == ForkExec && e.source == ProcId(m) && e.target == ProcId(n)
  }

  ghost predicate Detects(e: GraphEdge, p: nat, pat: AttackPattern) {
    e.kind == AttackPatternEdge && e.source == ProcId(p) && e.target == "pattern:" + pat.id && e.critical
  }

  /** A fork edge leads from parent to child, exactly where the child's record names the parent, and is
      critical exactly when the child is alarming; a pattern edge leads from a process to its pattern. */
  ghost predicate EdgesExplained(procs: Procs, nodes: seq<GraphNode>, edges: seq<GraphEdge>) {
    && (forall m, n :: n in procs ==>
          (HasFork(edges, m, n) <==> HasProcessNode(nodes, m) && HasProcessNode(nodes, n) && procs[n].ppid == m && m != n))
    && (forall p, pat :: HasProcessNode(nodes, p) && p in procs && pat in procs[p].attackPatterns ==> HasDetection(edges, p, pat))
    && (forall e :: e in edges ==> ForkTold(procs, e) || PatternTold(procs, nodes, e))
  }

  ghost predicate HasFork(edges: seq<GraphEdge>, m: nat, n: nat) {
    exists e :: e in edges && Forks(e, m, n)
  }

  ghost predicate HasDetection(edges: seq<GraphEdge>, p: nat, pat: AttackPattern) {
    exists e :: e in edges && Detects(e, p, pat)
  }

  ghost predicate ForkTold(procs: Procs, e: GraphEdge) {
    exists n :: n in procs && Forks(e, procs[n].ppid, n) && (e.critical <==> Alarming(procs[n]))
  }

  ghost predicate PatternTold(procs: Procs, nodes: seq<GraphNode>, e: GraphEdge) {
    exists p, pat :: p in procs && pat in procs[p].attackPatterns && Detects(e, p, pat) && HasPatternNode(nodes, p, pat)
  }

  ghost predicate AllShown(procs: Procs, live: set<nat>, pids: seq<nat>, context: set<nat>)
  {
    live <= procs.Keys && context == Context(procs, live, Threats(procs, live)) &&
    forall p :: p in pids <==> p in Threats(procs, live) + context
  }

  lemma ShownIff(procs: Procs, live: set<nat>, pids: seq<nat>, context: set<nat>, p: nat)
    requires AllShown(procs, live, pids, context)
    ensures p in pids <==> IsShown(procs, live, p)
    ensures p in pids ==> p in procs && (Alarming(procs[p]) || p in context) && (p in context ==> p in live)
  {
    forall t | t in live
      ensures t in Threats(procs, live) <==> Alarming(procs[t])
      ensures p in live && p > 0 ==> (WithinTwoHops(procs, live, t, p) <==> Explains(procs, live, p, t))
    {
    }
  }

  lemma ProcessNodeIff(procs: Procs, pids: seq<nat>, context: set<nat>, n: GraphNode)
    requires forall p :: p in pids ==> p in procs
    ensures n in ProcessNodes(procs, pids, context) <==> n.pid in pids && n == ProcessNodeOf(n.pid, procs[n.pid], n.pid in context)
  {
    if n.pid in pids && n == ProcessNodeOf(n.pid, procs[n.pid], n.pid in context) {
      var i :| 0 <= i < |pids| && pids[i] == n.pid;
      assert ProcessNodes(procs, pids, context)[i] == n;
    }
  }

  ghost predicate IsPatternOf(procs: Procs, pids: seq<nat>, n: GraphNode, p: nat, pat: AttackPattern) {
    p in pids && p in procs && pat in procs[p].attackPatterns && n == PatternNodeOf(procs[p], pat)
  }

  lemma PatternNodeIff(procs: Procs, pids: seq<nat>, n: GraphNode)
    requires forall p :: p in pids ==> p in procs
    ensures n in PatternNodes(procs, pids) <==> exists p, pat :: IsPatternOf(procs, pids, n, p, pat)
  {
    if n in PatternNodes(procs, pids) {
      var m :| 0 <= m < |PatternNodes(procs, pids)| && PatternNodes(procs, pids)[m] == n;
      var i, j := PatternNodeAt(procs, pids, m);
      assert IsPatternOf(procs, pids, n, pids[i], procs[pids[i]].attackPatterns[j]);
    }
    if p, pat :| IsPatternOf(procs, pids, n, p, pat) {
      var i :| 0 <= i < |pids| && pids[i] == p;
      var j :| 0 <= j < |procs[p].attackPatterns| && procs[p].attackPatterns[j] == pat;
      PatternNodeIn(procs, pids, i, j, |pids|);
      assert pids[..|pids|] == pids;
    }
  }

  lemma NodesAreExplained(procs: Procs, live: set<nat>, pids: seq<nat>, context: set<nat>, nodes: seq<GraphNode>)
    requires AllShown(procs, live, pids, context) && (forall p :: p in pids ==> p in procs)
    requires forall p :: p in procs ==> procs[p].pid == p
    requires nodes == ProcessNodes(procs, pids, context) + PatternNodes(procs, pids)
    ensures NodesExplained(procs, live, nodes)
  {
    forall n | n in nodes
      ensures TellsProcess(procs, n) || exists pat :: TellsPattern(procs, n, pat)
      ensures n.id == ProcId(n.pid) ==> n.pid in pids
    {
      NodeTells(procs, live, pids, context, nodes, n);
    }
    forall p
      ensures HasProcessNode(nodes, p) <==> IsShown(procs, live, p)
      ensures p in pids ==> p in procs && forall pat :: pat in procs[p].attackPatterns ==> HasPatternNode(nodes, p, pat)
    {
      ShownIff(procs, live, pids, context, p);
      if p in pids {
        ShownHasNodes(procs, pids, context, nodes, p);
      }
    }
    forall p, pat | p in live && IsShown(procs, live, p) && pat in procs[p].attackPatterns
      ensures HasPatternNode(nodes, p, pat)
    {
      ShownIff(procs, live, pids, context, p);
    }
  }

  lemma NodeTells(procs: Procs, live: set<nat>, pids: seq<nat>, context: set<nat>, nodes: seq<GraphNode>, n: GraphNode)
    requires AllShown(procs, live, pids, context) && (forall p :: p in pids ==> p in procs)
    requires forall p :: p in procs ==> procs[p].pid == p
    requires nodes == ProcessNodes(procs, pids, context) + PatternNodes(procs, pids) && n in nodes
    ensures TellsProcess(procs, n) || exists pat :: TellsPattern(procs, n, pat)
    ensures n.pid in pids
  {
    if n in ProcessNodes(procs, pids, context) {
      ProcessNodeIff(procs, pids, context, n);
      ShownIff(procs, live, pids, context, n.pid);
    } else {
      PatternNodeIff(procs, pids, n);
      var p, pat :| IsPatternOf(procs, pids, n, p, pat);
      assert TellsPattern(procs, n, pat);
    }
  }

  lemma ShownHasNodes(procs: Procs, pids: seq<nat>, context: set<nat>, nodes: seq<GraphNode>, p: nat)
    requires (forall q :: q in pids ==> q in procs) && (forall q :: q in procs ==> procs[q].pid == q) && p in pids
    requires nodes == ProcessNodes(procs, pids, context) + PatternNodes(procs, pids)
    ensures HasProcessNode(nodes, p) && forall pat :: pat in procs[p].attackPatterns ==> HasPatternNode(nodes, p, pat)
  {
    var own := ProcessNodeOf(p, procs[p], p in context);
    ProcessNodeIff(procs, pids, context, own);
    assert own in nodes;
    forall pat | pat in procs[p].attackPatterns
      ensures HasPatternNode(nodes, p, pat)
    {
      var n := PatternNodeOf(procs[p], pat);
      assert IsPatternOf(procs, pids, n, p, pat);
      PatternNodeIff(procs, pids, n);
      assert n in nodes;
    }
  }

  ghost predicate IsEdgeOf(procs: Procs, visible: set<nat>, p: nat, e: GraphEdge)
    requires p in procs
  {
    e in ForkEdges(procs, visible, p) || exists pat :: pat in procs[p].attackPatterns && e == PatternEdgeOf(p, pat)
  }

  lemma {:induction false} GraphEdgeIff(procs: Procs, visible: set<nat>, pids: seq<nat>, e: GraphEdge)
    requires forall p :: p in pids ==> p in procs
    ensures e in GraphEdges(procs, visible, pids) <==> exists p :: p in pids && IsEdgeOf(procs, visible, p, e)
    decreases |pids|
  {
    if pids != [] {
      var init, p := pids[..|pids| - 1], pids[|pids| - 1];
      GraphEdgeIff(procs, visible, init, e);
      assert pids == init + [p];
      EdgesOfOneIff(procs, visible, p, e);
    }
  }

  lemma EdgesOfOneIff(procs: Procs, visible: set<nat>, p: nat, e: GraphEdge)
    requires p in procs
    ensures var r := procs[p];
            e in ForkEdges(procs, visible, p) + PatternEdgesOf(r, p, |r.attackPatterns|) <==> IsEdgeOf(procs, visible, p, e)
  {
    var r := procs[p];
    var own := PatternEdgesOf(r, p, |r.attackPatterns|);
    if e in own {
      var i :| 0 <= i < |own| && own[i] == e;
      assert r.attackPatterns[i] in r.attackPatterns;
    }
    if pat :| pat in r.attackPatterns && e == PatternEdgeOf(p, pat) {
      var i :| 0 <= i < |r.attackPatterns| && r.attackPatterns[i] == pat;
      assert own[i] == e;
    }
  }

  lemma NodeIffShown(procs: Procs, pids: seq<nat>, context: set<nat>, nodes: seq<GraphNode>, p: nat)
    requires (forall q :: q in pids ==> q in procs) && (forall q :: q in procs ==> procs[q].pid == q)
    requires nodes == ProcessNodes(procs, pids, context) + PatternNodes(procs, pids)
    ensures HasProcessNode(nodes, p) <==> p in pids
  {
    if p in pids {
      ShownHasNodes(procs, pids, context, nodes, p);
    }
    if n :| n in nodes && n.id == ProcId(p) && n.pid == p {
      if n in ProcessNodes(procs, pids, context) {
        ProcessNodeIff(procs, pids, context, n);
      } else {
        PatternNodeIff(procs, pids, n);
      }
    }
  }

  lemma EdgesAreExplained(
      procs: Procs, pids: seq<nat>, visible: set<nat>, context: set<nat>, nodes: seq<GraphNode>, edges: seq<GraphEdge>)
    requires (forall q :: q in pids ==> q in procs) && (forall q :: q in procs ==> procs[q].pid == q)
    requires (forall p :: p in pids <==> p in visible)
    requires nodes == ProcessNodes(procs, pids, context) + PatternNodes(procs, pids) && edges == GraphEdges(procs, visible, pids)
    ensures EdgesExplained(procs, nodes, edges)
  {
    forall m, n | n in procs
      ensures HasFork(edges, m, n) <==> HasProcessNode(nodes, m) && HasProcessNode(nodes, n) && procs[n].ppid == m && m != n
    {
      NodeIffShown(procs, pids, context, nodes, m);
      NodeIffShown(procs, pids, context, nodes, n);
      ForkEdgeIff(procs, pids, visible, m, n);
    }
    forall p, pat | HasProcessNode(nodes, p) && p in procs && pat in procs[p].attackPatterns
      ensures HasDetection(edges, p, pat)
    {
      NodeIffShown(procs, pids, context, nodes, p);
      PatternEdgePresent(procs, pids, visible, p, pat);
    }
    forall e | e in edges
      ensures ForkTold(procs, e) || PatternTold(procs, nodes, e)
    {
      EdgeTells(procs, pids, visible, context, nodes, e);
    }
  }

  lemma PatternEdgePresent(procs: Procs, pids: seq<nat>, visible: set<nat>, p: nat, pat: AttackPattern)
    requires (forall q :: q in pids ==> q in procs) && p in pids && pat in procs[p].attackPatterns
    ensures HasDetection(GraphEdges(procs, visible, pids), p, pat)
  {
    var e := PatternEdgeOf(p, pat);
    assert IsEdgeOf(procs, visible, p, e);
    GraphEdgeIff(procs, visible, pids, e);
    assert Detects(e, p, pat);
  }

  lemma EdgeTells(procs: Procs, pids: seq<nat>, visible: set<nat>, context: set<nat>, nodes: seq<GraphNode>, e: GraphEdge)
    requires (forall q :: q in pids ==> q in procs) && (forall q :: q in procs ==> procs[q].pid == q)
    requires nodes == ProcessNodes(procs, pids, context) + PatternNodes(procs, pids) && e in GraphEdges(procs, visible, pids)
    ensures ForkTold(procs, e) || PatternTold(procs, nodes, e)
  {
    GraphEdgeIff(procs, visible, pids, e);
    var p :| p in pids && IsEdgeOf(procs, visible, p, e);
    if e in ForkEdges(procs, visible, p) {
      assert Forks(e, procs[p].ppid, p);
    } else {
      var pat :| pat in procs[p].attackPatterns && e == PatternEdgeOf(p, pat);
      ShownHasNodes(procs, pids, context, nodes, p);
      assert Detects(e, p, pat);
    }
  }

  lemma ForkEdgeIff(procs: Procs, pids: seq<nat>, visible: set<nat>, m: nat, n: nat)
    requires (forall q :: q in pids ==> q in procs) && (forall p :: p in pids <==> p in visible) && n in procs
    ensures HasFork(GraphEdges(procs, visible, pids), m, n) <==>
            m in pids && n in pids && procs[n].ppid == m && m != n
  {
    var edges := GraphEdges(procs, visible, pids);
    if e :| e in edges && Forks(e, m, n) {
      GraphEdgeIff(procs, visible, pids, e);
      var p :| p in pids && IsEdgeOf(procs, visible, p, e);
      ProcIdInjective(p, n);
      ProcIdInjective(procs[p].ppid, m);
    }
    if m in pids && n in pids && procs[n].ppid == m && m != n {
      var e := ForkEdgeOf(n, procs[n]);
      assert IsEdgeOf(procs, visible, n, e);
      GraphEdgeIff(procs, visible, pids, e);
      assert Forks(e, m, n);
    }
  }

  // ---- what the graph promises ----

  lemma {:induction false} PatternNodeAt(procs: Procs, pids: seq<nat>, m: nat) returns (i: nat, j: nat)
    requires (forall p :: p in pids ==> p in procs) && m < |PatternNodes(procs, pids)|
    ensures i < |pids| && j < |procs[pids[i]].attackPatterns| && m == |PatternNodes(procs, pids[..i])| + j
    ensures PatternNodes(procs, pids)[m] == PatternNodeOf(procs[pids[i]], procs[pids[i]].attackPatterns[j])
    decreases |pids|
  {
    var n := |pids| - 1;
    if m < |PatternNodes(procs, pids[..n])| {
      i, j := PatternNodeAt(procs, pids[..n], m);
      assert pids[..n][..i] == pids[..i];
    } else {
      i, j := n, m - |PatternNodes(procs, pids[..n])|;
    }
  }

  lemma PatternNodeIdsDistinct(procs: Procs, pids: seq<nat>, a: nat, b: nat)
    requires ListsSound(procs) && NoDuplicates(pids) && (forall p :: p in pids ==> p in procs)
    requires a < b < |PatternNodes(procs, pids)|
    ensures PatternNodes(procs, pids)[a].id != PatternNodes(procs, pids)[b].id
  {
    var i, j := PatternNodeAt(procs, pids, b);
    var k, l := PatternNodeAt(procs, pids, a);
    PatternPositionsOrdered(procs, pids, k, l, i, j);
    PatternIdIsNew(procs, pids, i, j);
    var id := PatternNodeId(procs[pids[k]].attackPatterns[l]);
    assert IsPatternId(procs, pids, i, j, id);
  }

  lemma ProcessNodeIdsDistinct(procs: Procs, pids: seq<nat>, context: set<nat>, a: nat, b: nat)
    requires NoDuplicates(pids) && (forall p :: p in pids ==> p in procs) && a < b < |pids|
    ensures ProcessNodes(procs, pids, context)[a].id != ProcessNodes(procs, pids, context)[b].id
  {
    if ProcId(pids[a]) == ProcId(pids[b]) {
      ProcIdInjective(pids[a], pids[b]);
    }
  }

  lemma ProcessAndPatternNodeIdsDistinct(procs: Procs, pids: seq<nat>, context: set<nat>, a: nat, b: nat)
    requires (forall p :: p in pids ==> p in procs) && a < |pids| && b < |PatternNodes(procs, pids)|
    ensures ProcessNodes(procs, pids, context)[a].id != PatternNodes(procs, pids)[b].id
  {
    var i, j := PatternNodeAt(procs, pids, b);
    ProcessAndPatternIdsDiffer(pids[a], procs[pids[i]].attackPatterns[j]);
  }

  ghost predicate IdsDistinct(nodes: seq<GraphNode>) {
    forall a, b :: 0 <= a < b < |nodes| ==> nodes[a].id != nodes[b].id
  }

  lemma ConcatIdsDistinct(s: seq<GraphNode>, t: seq<GraphNode>)
    requires IdsDistinct(s) && IdsDistinct(t)
    requires forall a, b :: 0 <= a < |s| && 0 <= b < |t| ==> s[a].id != t[b].id
    ensures IdsDistinct(s + t)
  {
  }

  /** Node IDs are pairwise distinct. */
  lemma NodeIdsDistinct(procs: Procs, pids: seq<nat>, context: set<nat>)
    requires ListsSound(procs) && NoDuplicates(pids) && (forall p :: p in pids ==> p in procs)
    ensures IdsDistinct(ProcessNodes(procs, pids, context) + PatternNodes(procs, pids))
  {
    var own: seq<GraphNode> := ProcessNodes(procs, pids, context);
    var patterns: seq<GraphNode> := PatternNodes(procs, pids);
    forall a, b | 0 <= a < b < |own|
      ensures own[a].id != own[b].id
    {
      ProcessNodeIdsDistinct(procs, pids, context, a, b);
    }
    forall a, b | 0 <= a < b < |patterns|
      ensures patterns[a].id != patterns[b].id
    {
      PatternNodeIdsDistinct(procs, pids, a, b);
    }
    forall a, b | 0 <= a < |own| && 0 <= b < |patterns|
      ensures own[a].id != patterns[b].id
    {
      ProcessAndPatternNodeIdsDistinct(procs, pids, context, a, b);
    }
    ConcatIdsDistinct(own, patterns);
  }

  lemma {:induction false} PatternNodesGrow(procs: Procs, pids: seq<nat>, i: nat, n: nat)
    requires (forall p :: p in pids ==> p in procs) && i < n <= |pids|
    ensures |PatternNodes(procs, pids[..i])| + |procs[pids[i]].attackPatterns| <= |PatternNodes(procs, pids[..n])|
    decreases n
  {
    assert pids[..n][..n - 1] == pids[..n - 1];
    if i < n - 1 {
      PatternNodesGrow(procs, pids, i, n - 1);
    }
  }

  lemma PatternPositionsOrdered(procs: Procs, pids: seq<nat>, i: nat, j: nat, k: nat, l: nat)
    requires (forall p :: p in pids ==> p in procs) && i < |pids| && k < |pids|
    requires j < |procs[pids[i]].attackPatterns| && l < |procs[pids[k]].attackPatterns|
    requires |PatternNodes(procs, pids[..i])| + j < |PatternNodes(procs, pids[..k])| + l
    ensures i < k || (i == k && j < l)
  {
    if k < i {
      PatternNodesGrow(procs, pids, k, i);
    }
  }

  ghost predicate IsNodeId(procs: Procs, pids: seq<nat>, context: set<nat>, id: string)
    requires forall p :: p in pids ==> p in procs
  {
    exists n :: n in ProcessNodes(procs, pids, context) + PatternNodes(procs, pids) && n.id == id
  }

  /** Both ends of every edge are nodes. */
  lemma {:induction false} EdgesClosed(procs: Procs, pids: seq<nat>, visible: set<nat>, context: set<nat>, n: nat, e: GraphEdge)
    requires (forall p :: p in pids <==> p in visible) && (forall p :: p in pids ==> p in procs) && n <= |pids|
    requires e in GraphEdges(procs, visible, pids[..n])
    ensures IsNodeId(procs, pids, context, e.source) && IsNodeId(procs, pids, context, e.target)
    decreases n
  {
    var pid, r := pids[n - 1], procs[pids[n - 1]];
    assert pids[..n][..n - 1] == pids[..n - 1];
    assert pid in pids;
    if e in GraphEdges(procs, visible, pids[..n - 1]) {
      EdgesClosed(procs, pids, visible, context, n - 1, e);
    } else if e in ForkEdges(procs, visible, pid) {
      ProcessNodePresent(procs, pids, context, pid);
      ProcessNodePresent(procs, pids, context, r.ppid);
    } else {
      var k :| 0 <= k < |r.attackPatterns| && e == PatternEdgeOf(pid, r.attackPatterns[k]);
      ProcessNodePresent(procs, pids, context, pid);
      PatternNodePresent(procs, pids, context, n - 1, k, |pids|);
    }
  }

  lemma ProcessNodePresent(procs: Procs, pids: seq<nat>, context: set<nat>, pid: nat)
    requires (forall p :: p in pids ==> p in procs) && pid in pids
    ensures IsNodeId(procs, pids, context, ProcId(pid))
  {
    var i :| 0 <= i < |pids| && pids[i] == pid;
    var node := ProcessNodes(procs, pids, context)[i];
    assert (ProcessNodes(procs, pids, context) + PatternNodes(procs, pids))[i] == node;
  }

  lemma {:induction false} PatternNodeIn(procs: Procs, pids: seq<nat>, i: nat, k: nat, n: nat)
    requires (forall p :: p in pids ==> p in procs) && i < n <= |pids| && k < |procs[pids[i]].attackPatterns|
    ensures PatternNodeOf(procs[pids[i]], procs[pids[i]].attackPatterns[k]) in PatternNodes(procs, pids[..n])
    decreases n
  {
    assert pids[..n][..n - 1] == pids[..n - 1];
    if i < n - 1 {
      PatternNodeIn(procs, pids, i, k, n - 1);
    } else {
      var r := procs[pids[i]];
      assert PatternNodesOf(r, |r.attackPatterns|)[k] == PatternNodeOf(r, r.attackPatterns[k]);
    }
  }

  lemma PatternNodePresent(procs: Procs, pids: seq<nat>, context: set<nat>, i: nat, k: nat, n: nat)
    requires (forall p :: p in pids ==> p in procs) && i < n == |pids| && k < |procs[pids[i]].attackPatterns|
    ensures IsNodeId(procs, pids, context, PatternNodeId(procs[pids[i]].attackPatterns[k]))
  {
    PatternNodeIn(procs, pids, i, k, n);
    assert pids[..n] == pids;
    var node := PatternNodeOf(procs[pids[i]], procs[pids[i]].attackPatterns[k]);
    assert node in ProcessNodes(procs, pids, context) + PatternNodes(procs, pids);
  }
}
