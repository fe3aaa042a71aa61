/** The in-memory causal graph: five indexes over the same nodes and edges, trust held in nodes
    that two of the indexes share, and traversals over links that nothing forces to be acyclic. */
module Provenance {
  import opened EdgeLists
  import opened Forest
  import opened NodeIds
  import opened Ordering
  import opened Wrappers

  datatype NodeType = ProcessNode | FileNode | SocketNode

  class Node {
    const id: string
    const kind: NodeType
    const pid: nat
    const ppid: nat
    const comm: string
    const path: string
    const addr: string
    const port: nat
    var trust: real

    constructor Process(pid: nat, ppid: nat, comm: string)
      ensures kind == ProcessNode && id == ProcId(pid) && trust == 100.0
      ensures this.pid == pid && this.ppid == ppid && this.comm == comm
    {
      this.id, this.kind, this.trust := ProcId(pid), ProcessNode, 100.0;
      this.pid, this.ppid, this.comm := pid, ppid, comm;
      this.path, this.addr, this.port := "", "", 0;
    }

    constructor File(path: string)
      ensures kind == FileNode && id == FileId(path) && trust == 100.0 && this.path == path
    {
      this.id, this.kind, this.trust, this.path := FileId(path), FileNode, 100.0, path;
      this.pid, this.ppid, this.comm, this.addr, this.port := 0, 0, "", "", 0;
    }

    constructor Socket(addr: string, port: nat)
      ensures kind == SocketNode && id == SockId(addr, port) && trust == 100.0
      ensures this.addr == addr && this.port == port
    {
      this.id, this.kind, this.trust := SockId(addr, port), SocketNode, 100.0;
      this.addr, this.port := addr, port;
      this.pid, this.ppid, this.comm, this.path := 0, 0, "", "";
    }

    ghost predicate WellNamed() {
      match kind
      case ProcessNode => id == ProcId(pid)
      case FileNode => id == FileId(path)
      case SocketNode => id == SockId(addr, port)
    }
  }

  /** What reaches a descendant k generations below a process whose trust was set to t. */
  ghost function Faded(t: real, k: nat): real
    decreases k
  {
    if k == 0 then t else Faded(t * 0.85, k - 1)
  }

  ghost function Power(b: real, k: nat): real {
    if k == 0 then 1.0 else b * Power(b, k - 1)
  }

  lemma {:induction false} FadedIsPower(t: real, k: nat)
    ensures Faded(t, k) == t * Power(0.85, k)
    decreases k
  {
    if k > 0 {
      FadedIsPower(t * 0.85, k - 1);
      assert (t * 0.85) * Power(0.85, k - 1) == t * (0.85 * Power(0.85, k - 1));
    }
  }

  /** The trust a new process starts with: a benign parent hands on its own, a degraded one 90%. */
  function Inherited(parentTrust: real): real {
    if parentTrust >= 70.0 then parentTrust else parentTrust * 0.90
  }

  /** A child never starts above its parent, and starts level exactly while the parent is benign. */
  lemma InheritedNeverRises(parentTrust: real)
    requires 0.0 <= parentTrust <= 100.0
    ensures 0.0 <= Inherited(parentTrust) <= parentTrust
    ensures Inherited(parentTrust) == parentTrust <==> parentTrust >= 70.0 || parentTrust == 0.0
    ensures parentTrust < 70.0 ==> 10.0 * Inherited(parentTrust) == 9.0 * parentTrust
  {
  }

  ghost predicate InSubtrees(par: Links, p: nat, tops: seq<nat>) {
    exists m, k: nat :: 0 <= m < |tops| && Up(par, p, k) == Some(tops[m])
  }

  /** A node is stored under its own ID, and a process under its PID as the same object. */
  ghost predicate NodesIndexed(nodes: map<string, Node>, pidNode: map<nat, Node>) {
    && (forall id :: id in nodes ==> nodes[id].id == id && nodes[id].WellNamed())
    && (forall id :: id in nodes && nodes[id].kind == ProcessNode ==>
          nodes[id].pid in pidNode && pidNode[nodes[id].pid] == nodes[id])
    && (forall p :: p in pidNode ==>
          ProcId(p) in nodes && nodes[ProcId(p)] == pidNode[p] &&
          pidNode[p].pid == p && pidNode[p].kind == ProcessNode)
  }

  /** `children` lists every process under its PPID, once, and nothing else. */
  ghost predicate ChildrenIndexed(children: map<nat, seq<nat>>, pidNode: map<nat, Node>) {
    && (forall pp :: NoDuplicates(Listed(children, pp)))
    && (forall pp, c :: c in Listed(children, pp) <==> c in pidNode && pidNode[c].ppid == pp && pp > 0)
  }

  /** The parent links that `children` lists the other way round. */
  ghost function LinksOf(pidNode: map<nat, Node>): Links {
    map c | c in pidNode && pidNode[c].ppid > 0 :: pidNode[c].ppid
  }

  /** cs lists the children of pid, each once. */
  ghost predicate ListsChildren(par: Links, pid: nat, cs: seq<nat>) {
    NoDuplicates(cs) && forall c :: c in cs <==> c in par && par[c] == pid
  }

  lemma ChildrenAreListed(children: map<nat, seq<nat>>, pidNode: map<nat, Node>, pid: nat)
    requires ChildrenIndexed(children, pidNode)
    ensures ListsChildren(LinksOf(pidNode), pid, Listed(children, pid))
  {
  }

  /** A node stored under a process ID is the process with that PID, in both indexes. */
  lemma ProcNodeIsRegistered(nodes: map<string, Node>, pidNode: map<nat, Node>, pid: nat)
    requires NodesIndexed(nodes, pidNode)
    ensures ProcId(pid) in nodes <==> pid in pidNode
    ensures pid in pidNode ==> pidNode[pid] == nodes[ProcId(pid)]
  {
    if ProcId(pid) in nodes {
      var n := nodes[ProcId(pid)];
      PrefixesDisjoint(pid, n.path, n.addr, n.port);
      ProcIdInjective(pid, n.pid);
    }
  }

  lemma AddProcessKeepsNodesIndexed(nodes: map<string, Node>, pidNode: map<nat, Node>, n: Node)
    requires NodesIndexed(nodes, pidNode) && n.WellNamed() && n.kind == ProcessNode && n.id !in nodes
    ensures NodesIndexed(nodes[n.id := n], pidNode[n.pid := n])
  {
    forall p | p in pidNode && p != n.pid
      ensures ProcId(p) != n.id
    {
      if ProcId(p) == n.id {
        ProcIdInjective(p, n.pid);
      }
    }
    forall id | id in nodes && nodes[id].kind == ProcessNode
      ensures nodes[id].pid != n.pid
    {
      assert nodes[id].WellNamed();
    }
  }

  lemma AddProcessLinks(pidNode: map<nat, Node>, n: Node)
    requires n.pid !in pidNode
    ensures LinksOf(pidNode[n.pid := n]) ==
            if n.ppid == 0 then LinksOf(pidNode) else LinksOf(pidNode)[n.pid := n.ppid]
  {
  }

  lemma AddOtherKeepsNodesIndexed(nodes: map<string, Node>, pidNode: map<nat, Node>, n: Node)
    requires NodesIndexed(nodes, pidNode) && n.WellNamed() && n.kind != ProcessNode && n.id !in nodes
    ensures NodesIndexed(nodes[n.id := n], pidNode)
  {
  }

  lemma AddProcessKeepsChildrenIndexed(children: map<nat, seq<nat>>, pidNode: map<nat, Node>, n: Node)
    requires ChildrenIndexed(children, pidNode) && n.pid !in pidNode
    ensures n.ppid > 0 ==>
              ChildrenIndexed(children[n.ppid := Listed(children, n.ppid) + [n.pid]], pidNode[n.pid := n])
    ensures n.ppid == 0 ==> ChildrenIndexed(children, pidNode[n.pid := n])
  {
    var grown := if n.ppid > 0 then children[n.ppid := Listed(children, n.ppid) + [n.pid]] else children;
    forall pp
      ensures NoDuplicates(Listed(grown, pp))
      ensures forall c :: c in Listed(grown, pp) <==> c in Listed(children, pp) || (c == n.pid && pp == n.ppid && pp > 0)
    {
      assert n.pid !in Listed(children, pp);
    }
  }

  /** `after` is `before` with every descendant of pid set to t decayed once per generation. */
  ghost predicate Propagated(par: Links, pid: nat, t: real, before: map<nat, real>, after: map<nat, real>) {
    && after.Keys == before.Keys
    && (forall p, k :: k >= 1 && p in after && Up(par, p, k) == Some(pid) ==> after[p] == Faded(t, k))
    && (forall p :: p in after && !Below(par, p, pid) ==> after[p] == before[p])
  }

  lemma {:induction false} FadedRange(t: real, k: nat)
    requires 0.0 <= t <= 100.0
    ensures 0.0 <= Faded(t, k) <= t
    decreases k
  {
    if k > 0 {
      FadedRange(t * 0.85, k - 1);
    }
  }

  lemma PropagatedStaysInRange(par: Links, pid: nat, t: real, before: map<nat, real>, after: map<nat, real>)
    requires 0.0 <= t <= 100.0 && Propagated(par, pid, t, before, after)
    requires forall p :: p in before ==> 0.0 <= before[p] <= 100.0
    ensures forall p :: p in after ==> 0.0 <= after[p] <= 100.0
  {
    forall p | p in after
      ensures 0.0 <= after[p] <= 100.0
    {
      if Below(par, p, pid) {
        var k :| k >= 1 && Up(par, p, k) == Some(pid);
        FadedRange(t, k);
      }
    }
  }

  /** The same, part way through: the subtrees of the children in `tops` are done. */
  ghost predicate PropagatedTo(par: Links, tops: seq<nat>, t: real, before: map<nat, real>, after: map<nat, real>) {
    && after.Keys == before.Keys
    && (forall m, p, k: nat :: 0 <= m < |tops| && p in after && Up(par, p, k) == Some(tops[m]) ==>
          after[p] == Faded(t, k + 1))
    && (forall p :: p in after && !InSubtrees(par, p, tops) ==> after[p] == before[p])
  }

  /** One turn of the loop over the children: the subtree of child i is written, and the subtrees
      of the children before it are not touched again. */
  lemma SubtreeWritten(
      par: Links, pid: nat, cs: seq<nat>, i: nat, t: real, u: real,
      start: map<nat, real>, before: map<nat, real>, after: map<nat, real>)
    requires ListsChildren(par, pid, cs) && i < |cs| && !OnCycle(par, pid)
    requires PropagatedTo(par, cs[..i], t, start, before)
    requires u == t * 0.85 && cs[i] in before && Propagated(par, cs[i], u, before[cs[i] := u], after)
    ensures PropagatedTo(par, cs[..i + 1], t, start, after)
  {
    var done := cs[..i + 1];
    forall m, p, k: nat | 0 <= m < |done| && p in after && Up(par, p, k) == Some(done[m])
      ensures after[p] == Faded(t, k + 1)
    {
      assert done[m] == cs[m];
      WrittenBelow(par, pid, cs, i, t, u, start, before, after, m, p, k);
    }
    forall p | p in after && !InSubtrees(par, p, done)
      ensures after[p] == start[p]
    {
      InSubtreesGrows(par, p, cs, i);
    }
  }

  lemma WrittenBelow(
      par: Links, pid: nat, cs: seq<nat>, i: nat, t: real, u: real,
      start: map<nat, real>, before: map<nat, real>, after: map<nat, real>, m: nat, p: nat, k: nat)
    requires ListsChildren(par, pid, cs) && m <= i < |cs| && !OnCycle(par, pid)
    requires PropagatedTo(par, cs[..i], t, start, before)
    requires u == t * 0.85 && cs[i] in before && Propagated(par, cs[i], u, before[cs[i] := u], after)
    requires p in after && Up(par, p, k) == Some(cs[m])
    ensures after[p] == Faded(t, k + 1)
  {
    var mid := before[cs[i] := u];
    assert cs[i] in cs && cs[m] in cs;
    if m == i {
      NewSubtree(par, pid, cs[i], t, mid, after, p, k);
    } else {
      assert cs[..i][m] == cs[m];
      OtherSubtree(par, pid, cs[i], cs[m], t, mid, after, p, k);
    }
  }

  lemma InSubtreesGrows(par: Links, p: nat, cs: seq<nat>, i: nat)
    requires i < |cs|
    ensures InSubtrees(par, p, cs[..i]) || p == cs[i] || Below(par, p, cs[i]) ==> InSubtrees(par, p, cs[..i + 1])
  {
    var done := cs[..i + 1];
    assert done[i] == cs[i];
    assert Up(par, cs[i], 0) == Some(cs[i]);
    if InSubtrees(par, p, cs[..i]) {
      var m, k: nat :| 0 <= m < i && Up(par, p, k) == Some(cs[..i][m]);
      assert done[m] == cs[..i][m];
    }
  }

  lemma NewSubtree(
      par: Links, pid: nat, c: nat, t: real, mid: map<nat, real>, after: map<nat, real>, p: nat, k: nat)
    requires c in par && par[c] == pid && !OnCycle(par, pid) && c in mid && mid[c] == t * 0.85
    requires Propagated(par, c, t * 0.85, mid, after) && p in after && Up(par, p, k) == Some(c)
    ensures after[p] == Faded(t, k + 1)
  {
    ChildOffCycle(par, pid, c);
    if k == 0 {
      assert Faded(t, 1) == Faded(t * 0.85, 0);
    }
  }

  lemma OtherSubtree(
      par: Links, pid: nat, c: nat, d: nat, t: real, mid: map<nat, real>, after: map<nat, real>, p: nat, k: nat)
    requires c in par && par[c] == pid && d in par && par[d] == pid && c != d && !OnCycle(par, pid)
    requires Propagated(par, c, t * 0.85, mid, after) && p in after && Up(par, p, k) == Some(d)
    ensures p != c && after[p] == mid[p]
  {
    if p == c {
      assert Up(par, p, 0) == Some(c);
      SubtreesDisjoint(par, pid, d, c, p, k, 0);
    } else if Below(par, p, c) {
      var j :| j >= 1 && Up(par, p, j) == Some(c);
      SubtreesDisjoint(par, pid, d, c, p, k, j);
    }
  }

  lemma AllSubtreesWritten(
      par: Links, pid: nat, cs: seq<nat>, t: real, before: map<nat, real>, after: map<nat, real>)
    requires ListsChildren(par, pid, cs)
    requires PropagatedTo(par, cs[..|cs|], t, before, after)
    ensures Propagated(par, pid, t, before, after)
  {
    forall p, k | k >= 1 && p in after && Up(par, p, k) == Some(pid)
      ensures after[p] == Faded(t, k)
    {
      var c := UpLast(par, p, k, pid);
      assert c in cs;
      var m :| 0 <= m < |cs| && cs[m] == c;
      assert cs[..|cs|][m] == c;
      assert after[p] == Faded(t, k - 1 + 1);
    }
    forall p | p in after && InSubtrees(par, p, cs[..|cs|])
      ensures Below(par, p, pid)
    {
      var m, k :| 0 <= m < |cs| && Up(par, p, k) == Some(cs[..|cs|][m]);
      assert cs[m] in cs;
      UpAdd(par, p, k, 1);
      assert Up(par, cs[m], 1) == Up(par, pid, 0);
    }
  }

  /** pid, its PPID, the PPID of that, ...; stays put once the process is not tracked. */
  ghost function Climb(ppids: map<nat, nat>, pid: nat, k: nat): nat {
    if k == 0 then pid
    else
      var below := Climb(ppids, pid, k - 1);
      if below in ppids then ppids[below] else below
  }

  ghost function Ppids(pidNode: map<nat, Node>): map<nat, nat> {
    map p | p in pidNode :: pidNode[p].ppid
  }

  ghost predicate StopsAt(ppids: map<nat, nat>, pid: nat, k: nat) {
    var top := Climb(ppids, pid, k);
    top !in ppids || top <= 1 || exists i :: 0 <= i < k && Climb(ppids, pid, i) == top
  }

  /** The first step of the climb that meets an untracked PID, a PID at most 1, or a PID again. */
  ghost predicate IsAncestryDepth(ppids: map<nat, nat>, pid: nat, depth: nat) {
    StopsAt(ppids, pid, depth) && forall k :: 0 <= k < depth ==> !StopsAt(ppids, pid, k)
  }

  /** After `depth` steps the climb stands at `current`, and `seen` holds the PIDs it left behind. */
  ghost predicate Climbing(ppids: map<nat, nat>, pid: nat, depth: nat, current: nat, seen: set<nat>) {
    && current == Climb(ppids, pid, depth)
    && |seen| == depth && seen <= ppids.Keys
    && (forall i :: 0 <= i < depth ==> Climb(ppids, pid, i) in seen)
    && (forall x :: x in seen ==> exists i :: 0 <= i < depth && Climb(ppids, pid, i) == x)
    && (forall k :: 0 <= k < depth ==> !StopsAt(ppids, pid, k))
  }

  lemma ClimbOn(ppids: map<nat, nat>, pid: nat, depth: nat, current: nat, seen: set<nat>)
    requires Climbing(ppids, pid, depth, current, seen)
    requires current in ppids && current > 1 && current !in seen
    ensures Climbing(ppids, pid, depth + 1, ppids[current], seen + {current})
  {
    assert !StopsAt(ppids, pid, depth);
    forall x | x in seen + {current}
      ensures exists i :: 0 <= i < depth + 1 && Climb(ppids, pid, i) == x
    {
      if x in seen {
        var i :| 0 <= i < depth && Climb(ppids, pid, i) == x;
      }
    }
  }

  lemma ClimbStops(ppids: map<nat, nat>, pid: nat, depth: nat, current: nat, seen: set<nat>)
    requires Climbing(ppids, pid, depth, current, seen)
    requires current !in ppids || current <= 1 || current in seen
    ensures IsAncestryDepth(ppids, pid, depth) && depth <= |ppids|
  {
    SubsetIsSmaller(seen, ppids.Keys);
  }

  class CausalGraph {
    var nodes: map<string, Node>
    var edges: seq<Edge>
    var outEdges: map<string, seq<Edge>>
    var inEdges: map<string, seq<Edge>>
    var children: map<nat, seq<nat>>
    var pidNode: map<nat, Node>
    var edgeCounter: nat

    /** Every index agrees with every other. */
    ghost predicate Valid()
      reads this
    {
      && NodesIndexed(nodes, pidNode)
      && EdgesIndexed(edges, outEdges, inEdges, edgeCounter)
      && ChildrenIndexed(children, pidNode)
    }

    ghost function ParentLinks(): Links
      reads this
    {
      LinksOf(pidNode)
    }

    /** Both ends of every edge are nodes. */
    ghost predicate EndpointsExist()
      reads this
    {
      forall e :: e in edges ==> e.from in nodes && e.to in nodes
    }

    ghost predicate TrustInRange()
      reads this, nodes.Values
    {
      forall id :: id in nodes ==> 0.0 <= nodes[id].trust <= 100.0
    }

    constructor ()
      ensures Valid() && EndpointsExist() && TrustInRange() && Acyclic(ParentLinks())
      ensures nodes == map[] && pidNode == map[] && edges == []
    {
      nodes, edges, outEdges, inEdges := map[], [], map[], map[];
      children, pidNode, edgeCounter := map[], map[], 0;
    }

    /** Finds the process node or creates it, listed under its PPID and with inherited trust. */
    method AddProcessNode(pid: nat, ppid: nat, comm: string) returns (n: Node)
      requires Valid()
      modifies this`nodes, this`pidNode, this`children
      ensures Valid()
      ensures ProcId(pid) in nodes && n == nodes[ProcId(pid)] && pid in pidNode && n == pidNode[pid]
      ensures pid in old(pidNode) ==> unchanged(this)
      ensures pid !in old(pidNode) ==>
                && fresh(n) && n.ppid == ppid && n.comm == comm
                && nodes == old(nodes)[ProcId(pid) := n] && pidNode == old(pidNode)[pid := n]
                && children == (if ppid > 0 then old(children)[ppid := Listed(old(children), ppid) + [pid]] else old(children))
                && n.trust == (if ppid > 0 && ppid in old(pidNode) then Inherited(old(pidNode[ppid].trust)) else 100.0)
      ensures ParentLinks() ==
              if pid in old(pidNode) || ppid == 0 then old(ParentLinks()) else old(ParentLinks())[pid := ppid]
      ensures old(TrustInRange()) ==> TrustInRange()
    {
      var id := ProcId(pid);
      ProcNodeIsRegistered(nodes, pidNode, pid);
      if id in nodes {
        n := nodes[id];
        return;
      }
      n := new Node.Process(pid, ppid, comm);
      if ppid > 0 && ppid in pidNode {
        InheritTrust(n, pidNode[ppid]);
      }
      RegisterProcess(n);
    }

    method InheritTrust(n: Node, parent: Node)
      requires n != parent
      modifies n
      ensures n.trust == Inherited(parent.trust)
    {
      if parent.trust >= 70.0 {
        n.trust := parent.trust;
      } else {
        n.trust := parent.trust * 0.90;
      }
    }

    method RegisterProcess(n: Node)
      requires Valid() && n.kind == ProcessNode && n.WellNamed() && n.pid !in pidNode && n.id !in nodes
      modifies this`nodes, this`pidNode, this`children
      ensures Valid()
      ensures nodes == old(nodes)[ProcId(n.pid) := n] && pidNode == old(pidNode)[n.pid := n]
      ensures children ==
              if n.ppid > 0 then old(children)[n.ppid := Listed(old(children), n.ppid) + [n.pid]] else old(children)
      ensures ParentLinks() == if n.ppid == 0 then old(ParentLinks()) else old(ParentLinks())[n.pid := n.ppid]
    {
      AddProcessKeepsNodesIndexed(nodes, pidNode, n);
      AddProcessKeepsChildrenIndexed(children, pidNode, n);
      AddProcessLinks(pidNode, n);
      nodes := nodes[n.id := n];
      pidNode := pidNode[n.pid := n];
      if n.ppid > 0 {
        children := children[n.ppid := Listed(children, n.ppid) + [n.pid]];
      }
    }

    method AddFileNode(path: string) returns (n: Node)
      requires Valid()
      modifies this`nodes
      ensures Valid()
      ensures FileId(path) in nodes && n == nodes[FileId(path)] && n.kind == FileNode && n.path == path
      ensures FileId(path) in old(nodes) ==> unchanged(this)
      ensures FileId(path) !in old(nodes) ==>
                fresh(n) && n.trust == 100.0 && nodes == old(nodes)[FileId(path) := n]
    {
      var id := FileId(path);
      if id in nodes {
        n := nodes[id];
        PrefixesDisjoint(n.pid, path, n.addr, n.port);
        FileIdInjective(path, n.path);
        return;
      }
      n := new Node.File(path);
      AddOtherKeepsNodesIndexed(nodes, pidNode, n);
      nodes := nodes[id := n];
    }

    method AddSocketNode(addr: string, port: nat) returns (n: Node)
      requires Valid()
      modifies this`nodes
      ensures Valid()
      ensures SockId(addr, port) in nodes && n == nodes[SockId(addr, port)]
      ensures n.kind == SocketNode && n.addr == addr && n.port == port
      ensures SockId(addr, port) in old(nodes) ==> unchanged(this)
      ensures SockId(addr, port) !in old(nodes) ==>
                fresh(n) && n.trust == 100.0 && nodes == old(nodes)[SockId(addr, port) := n]
    {
      var id := SockId(addr, port);
      if id in nodes {
        n := nodes[id];
        PrefixesDisjoint(n.pid, n.path, addr, port);
        SockIdInjective(addr, port, n.addr, n.port);
        return;
      }
      n := new Node.Socket(addr, port);
      AddOtherKeepsNodesIndexed(nodes, pidNode, n);
      nodes := nodes[id := n];
    }

    method AddEdge(fromID: string, toID: string, kind: EdgeType) returns (e: Edge)
      requires Valid()
      modifies this`edges, this`outEdges, this`inEdges, this`edgeCounter
      ensures Valid()
      ensures e == Edge(EdgeId(old(|edges|) + 1), fromID, toID, kind) && edges == old(edges) + [e]
    {
      e := Edge(EdgeId(edgeCounter + 1), fromID, toID, kind);
      AppendNumbered(edges, e);
      AppendOutListed(edges, outEdges, e);
      AppendInListed(edges, inEdges, e);
      edgeCounter := edgeCounter + 1;
      edges := edges + [e];
      outEdges := outEdges[fromID := Listed(outEdges, fromID) + [e]];
      inEdges := inEdges[toID := Listed(inEdges, toID) + [e]];
    }

    method SetProcessTrust(pid: nat, trust: real)
      requires Valid()
      modifies pidNode.Values
      ensures ProcessTrust() == if pid in pidNode then old(ProcessTrust())[pid := trust] else old(ProcessTrust())
      ensures old(TrustInRange()) && 0.0 <= trust <= 100.0 ==> TrustInRange()
    {
      var id := ProcId(pid);
      ProcNodeIsRegistered(nodes, pidNode, pid);
      if id in nodes {
        nodes[id].trust := trust;
      }
      if pid in pidNode {
        pidNode[pid].trust := trust;
      }
    }

    ghost function ProcessTrust(): (t: map<nat, real>)
      reads this, pidNode.Values
      ensures t.Keys == pidNode.Keys
    {
      map p | p in pidNode :: pidNode[p].trust
    }

    method SetTrust(pid: nat, trust: real)
      requires NodesIndexed(nodes, pidNode) && pid in pidNode
      modifies pidNode[pid]
      ensures ProcessTrust() == old(ProcessTrust())[pid := trust]
    {
      pidNode[pid].trust := trust;
    }

    /** One process written, then everything below it. */
    method SetAndPropagate(pid: nat, trust: real)
      requires NodesIndexed(nodes, pidNode) && ChildrenIndexed(children, pidNode)
      requires pid in pidNode && !OnCycle(ParentLinks(), pid)
      modifies pidNode.Values
      ensures Propagated(ParentLinks(), pid, trust, old(ProcessTrust())[pid := trust], ProcessTrust())
      decreases Descendants(ParentLinks(), pid), 1
    {
      SetTrust(pid, trust);
      PropagateTrust(pid, trust);
    }

    /** The recursion has no visited set, so it returns only off the cycles of the parent links
        (ReturnsIffOffCycle). Where it returns, a descendant k generations down ends with exactly
        the decayed trust and every other process keeps its own. */
    method PropagateTrust(pid: nat, parentTrust: real)
      requires NodesIndexed(nodes, pidNode) && ChildrenIndexed(children, pidNode) && !OnCycle(ParentLinks(), pid)
      modifies pidNode.Values
      ensures Propagated(ParentLinks(), pid, parentTrust, old(ProcessTrust()), ProcessTrust())
      decreases Descendants(ParentLinks(), pid), 0
    {
      ghost var par, start := ParentLinks(), ProcessTrust();
      var childPIDs := Listed(children, pid);
      ChildrenAreListed(children, pidNode, pid);
      for i := 0 to |childPIDs|
        invariant PropagatedTo(par, childPIDs[..i], parentTrust, start, ProcessTrust())
      {
        var c := childPIDs[i];
        ghost var before := ProcessTrust();
        assert c in childPIDs;
        if c in pidNode {
          DescendantsShrink(par, pid, c);
          ChildOffCycle(par, pid, c);
          var childTrust := parentTrust * 0.85;
          SetAndPropagate(c, childTrust);
          SubtreeWritten(par, pid, childPIDs, i, parentTrust, childTrust, start, before, ProcessTrust());
        }
      }
      AllSubtreesWritten(par, pid, childPIDs, parentTrust, start, ProcessTrust());
    }

    lemma ProcessesInRange()
      requires NodesIndexed(nodes, pidNode)
      requires forall p :: p in pidNode ==> 0.0 <= ProcessTrust()[p] <= 100.0
      ensures forall id :: id in nodes && nodes[id].kind == ProcessNode ==> 0.0 <= nodes[id].trust <= 100.0
    {
      forall id | id in nodes && nodes[id].kind == ProcessNode
        ensures 0.0 <= nodes[id].trust <= 100.0
      {
        var p := nodes[id].pid;
        assert ProcessTrust()[p] == nodes[id].trust;
      }
    }

    /** The nodes an update of nodeID may write: all processes if it is one, itself otherwise. */
    ghost function Affected(nodeID: string): set<Node>
      reads this
    {
      if nodeID in nodes && nodes[nodeID].kind != ProcessNode then {nodes[nodeID]} else pidNode.Values
    }

    /** Writes one node and, if it is a process, everything below it. */
    method UpdateTrust(nodeID: string, trust: real)
      requires Valid()
      requires forall p :: p in pidNode && ProcId(p) == nodeID ==> !OnCycle(ParentLinks(), p)
      modifies Affected(nodeID)
      ensures nodeID in nodes ==> nodes[nodeID].trust == trust
      ensures forall p :: p in pidNode && ProcId(p) == nodeID ==>
                Propagated(ParentLinks(), p, trust, old(ProcessTrust())[p := trust], ProcessTrust())
      ensures (forall p :: p in pidNode ==> ProcId(p) != nodeID) ==> ProcessTrust() == old(ProcessTrust())
      ensures old(TrustInRange()) && 0.0 <= trust <= 100.0 ==> TrustInRange()
    {
      if nodeID in nodes {
        var node := nodes[nodeID];
        if node.kind == ProcessNode {
          ghost var before := ProcessTrust();
          ghost var inRange := TrustInRange() && 0.0 <= trust <= 100.0;
          SetAndPropagate(node.pid, trust);
          if inRange {
            PropagatedStaysInRange(LinksOf(pidNode), node.pid, trust, before[node.pid := trust], ProcessTrust());
            ProcessesInRange();
          }
        } else {
          node.trust := trust;
        }
      }
    }

    /** The inner loop of the search: every outgoing edge of the front is collected and its target
        is queued unless it was visited before. */
    method VisitOutEdges(front: string, rest: seq<string>, seen: set<string>, found: seq<Edge>,
                         ghost root: string, ghost done: set<string>)
        returns (queue: seq<string>, visited: set<string>, collected: seq<Edge>)
      requires EdgesIndexed(edges, outEdges, inEdges, edgeCounter) && front !in done
      requires Searching(edges, root, [front] + rest, done, seen, found)
      ensures Searching(edges, root, queue, done + {front}, visited, collected)
    {
      IndexedEdgesDistinct(edges, outEdges, inEdges, edgeCounter);
      TakeFront(edges, root, [front] + rest, done, seen);
      assert ([front] + rest)[1..] == rest;
      queue, visited, collected := rest, seen, found;
      var out := Listed(outEdges, front);
      for i := 0 to |out|
        invariant Expanding(edges, root, front, i, queue, done + {front}, visited, collected, seen, found)
      {
        ExpandOn(edges, root, front, i, queue, done + {front}, visited, collected, seen, found);
        var edge := out[i];
        collected := collected + [edge];
        if edge.to !in visited {
          visited := visited + {edge.to};
          queue := queue + [edge.to];
        }
      }
      FrontExpanded(edges, root, front, queue, done, visited, collected, [front] + rest, seen, found);
    }

    /** The breadth-first search returns exactly the nodes reachable from the root and exactly
        their outgoing edges, each once. A node that no index knows comes back as null. */
    method Subgraph(rootID: string) returns (found: bool, subNodes: map<string, Node?>, subEdges: seq<Edge>)
      requires EdgesIndexed(edges, outEdges, inEdges, edgeCounter)
      ensures found <==> rootID in nodes
      ensures !found ==> subNodes == map[] && subEdges == []
      ensures found ==> forall x :: x in subNodes <==> Reachable(edges, rootID, x)
      ensures forall x :: x in subNodes ==> subNodes[x] == if x in nodes then nodes[x] else null
      ensures found ==> forall e :: e in subEdges <==> e in edges && Reachable(edges, rootID, e.from)
      ensures NoDuplicates(subEdges)
      ensures EndpointsExist() ==> forall x :: x in subNodes ==> subNodes[x] != null
    {
      subNodes, subEdges := map[], [];
      if rootID !in nodes {
        return false, map[], [];
      }
      found := true;
      IndexedEdgesDistinct(edges, outEdges, inEdges, edgeCounter);
      SearchStarts(edges, rootID);
      var queue := [rootID];
      var visited := {rootID};
      ghost var universe := {rootID} + set e | e in edges :: e.to;
      ClosedSetHoldsReachable(edges, universe, rootID);
      while |queue| > 0
        invariant Searching(edges, rootID, queue, subNodes.Keys, visited, subEdges)
        invariant forall x :: x in subNodes ==> subNodes[x] == if x in nodes then nodes[x] else null
        decreases universe - subNodes.Keys
      {
        var current := queue[0];
        ghost var done := subNodes.Keys;
        assert queue == [current] + queue[1..];
        TakeFront(edges, rootID, queue, done, visited);
        subNodes := subNodes[current := if current in nodes then nodes[current] else null];
        queue, visited, subEdges := VisitOutEdges(current, queue[1..], visited, subEdges, rootID, done);
        assert subNodes.Keys == done + {current};
      }
      SearchEnds(edges, rootID, subNodes.Keys, visited, subEdges);
      if EndpointsExist() {
        ClosedSetHoldsReachable(edges, nodes.Keys, rootID);
      }
    }

    /** Climbs the PPIDs with a visited set, so it returns on any graph. */
    method AncestryDepth(pid: nat) returns (depth: nat)
      ensures IsAncestryDepth(Ppids(pidNode), pid, depth)
      ensures depth <= |pidNode|
    {
      ghost var ppids := Ppids(pidNode);
      depth := 0;
      var current := pid;
      var seen: set<nat> := {};
      while current in pidNode && current > 1 && current !in seen
        invariant Climbing(ppids, pid, depth, current, seen)
        decreases pidNode.Keys - seen
      {
        ClimbOn(ppids, pid, depth, current, seen);
        seen := seen + {current};
        current := pidNode[current].ppid;
        depth := depth + 1;
      }
      ClimbStops(ppids, pid, depth, current, seen);
      assert ppids.Keys == pidNode.Keys;
    }

    method Stats() returns (total: nat, procs: nat, files: nat, socks: nat, edgesTotal: nat)
      requires Valid()
      ensures total == |nodes| == procs + files + socks && edgesTotal == |edges|
      ensures procs == |pidNode|
      ensures files == |OfKind(nodes, nodes.Keys, FileNode)| && socks == |OfKind(nodes, nodes.Keys, SocketNode)|
    {
      procs, files, socks := 0, 0, 0;
      var rest := nodes.Keys;
      while rest != {}
        invariant rest <= nodes.Keys && procs + files + socks == |nodes.Keys| - |rest|
        invariant procs == |OfKind(nodes, nodes.Keys - rest, ProcessNode)|
        invariant files == |OfKind(nodes, nodes.Keys - rest, FileNode)|
        invariant socks == |OfKind(nodes, nodes.Keys - rest, SocketNode)|
        decreases rest
      {
        var id :| id in rest;
        OneMoreOfKind(nodes, rest, id);
        rest := rest - {id};
        match nodes[id].kind {
          case ProcessNode => procs := procs + 1;
          case FileNode => files := files + 1;
          case SocketNode => socks := socks + 1;
        }
      }
      assert nodes.Keys - rest == nodes.Keys;
      ProcessesAreTracked(nodes, pidNode);
      total, edgesTotal := |nodes|, |edges|;
    }
  }

  ghost function OfKind(nodes: map<string, Node>, ids: set<string>, k: NodeType): set<string>
    requires ids <= nodes.Keys
  {
    set id | id in ids && nodes[id].kind == k
  }

  lemma OneMoreOfKind(nodes: map<string, Node>, rest: set<string>, id: string)
    requires rest <= nodes.Keys && id in rest
    ensures forall k :: |OfKind(nodes, nodes.Keys - (rest - {id}), k)| ==
                        |OfKind(nodes, nodes.Keys - rest, k)| + if nodes[id].kind == k then 1 else 0
  {
    forall k
      ensures |OfKind(nodes, nodes.Keys - (rest - {id}), k)| ==
              |OfKind(nodes, nodes.Keys - rest, k)| + if nodes[id].kind == k then 1 else 0
    {
      var before := OfKind(nodes, nodes.Keys - rest, k);
      assert OfKind(nodes, nodes.Keys - (rest - {id}), k) == if nodes[id].kind == k then before + {id} else before;
    }
  }

  lemma {:induction false} ImageSize(ids: set<string>, pids: set<nat>)
    requires forall id :: id in ids ==> exists p :: p in pids && ProcId(p) == id
    requires forall p :: p in pids ==> ProcId(p) in ids
    ensures |ids| == |pids|
    decreases |ids|
  {
    if ids == {} {
      assert pids == {} by {
        if p :| p in pids {
          assert ProcId(p) in ids;
        }
      }
    } else {
      var id :| id in ids;
      var p :| p in pids && ProcId(p) == id;
      forall q | q in pids - {p}
        ensures ProcId(q) != id
      {
        if ProcId(q) == id {
          ProcIdInjective(p, q);
        }
      }
      ImageSize(ids - {id}, pids - {p});
    }
  }

  /** As many process nodes as tracked PIDs. */
  lemma ProcessesAreTracked(nodes: map<string, Node>, pidNode: map<nat, Node>)
    requires NodesIndexed(nodes, pidNode)
    ensures |OfKind(nodes, nodes.Keys, ProcessNode)| == |pidNode|
  {
    forall id | id in OfKind(nodes, nodes.Keys, ProcessNode)
      ensures exists p :: p in pidNode.Keys && ProcId(p) == id
    {
      assert nodes[id].WellNamed() && nodes[id].pid in pidNode.Keys;
    }
    ImageSize(OfKind(nodes, nodes.Keys, ProcessNode), pidNode.Keys);
    assert |pidNode.Keys| == |pidNode|;
  }
}
