/** The process forest of the dashboard: nodes for the live records, linked by PPID, every level
    sorted in place. PPIDs may form cycles; what hangs on a cycle is linked but reachable from no root. */
module ProcessTree {
  import opened Forest
  import opened Ordering
  import opened Store
  import opened Wrappers

  /** What a level is sorted by; PIDs make it unique. */
  datatype NodeKey = NodeKey(threats: nat, syscalls: nat, comm: string, pid: nat)

  predicate KeyLess(a: NodeKey, b: NodeKey) {
    if a.threats != b.threats then a.threats > b.threats
    else if a.syscalls != b.syscalls then a.syscalls > b.syscalls
    else if a.comm != b.comm then StringLess(a.comm, b.comm)
    else a.pid < b.pid
  }

  class TreeNode {
    const key: NodeKey
    const ppid: nat
    var children: seq<TreeNode>

    constructor (key: NodeKey, ppid: nat)
      ensures this.key == key && this.ppid == ppid && children == []
    {
      this.key, this.ppid, children := key, ppid, [];
    }
  }

  predicate NodeLess(a: TreeNode, b: TreeNode) {
    KeyLess(a.key, b.key)
  }

  /** `all` holds every node under its PID. */
  ghost predicate Registered(all: map<nat, TreeNode>, n: TreeNode) {
    n.key.pid in all && all[n.key.pid] == n
  }

  ghost predicate AllRegistered(all: map<nat, TreeNode>, list: seq<TreeNode>) {
    forall i :: 0 <= i < |list| ==> Registered(all, list[i])
  }

  /** `list` holds the nodes of the PIDs in `pids`, each once. */
  ghost predicate HoldsExactly(all: map<nat, TreeNode>, list: seq<TreeNode>, pids: set<nat>) {
    && AllRegistered(all, list) && NoDuplicates(list)
    && (forall n :: n in list ==> n.key.pid in pids)
    && (forall p :: p in pids ==> p in all && all[p] in list && all[p].key.pid == p)
  }

  ghost function ChildPids(par: Links, p: nat): set<nat> {
    set c | c in par && par[c] == p
  }

  /** What every node lists at the moment. */
  ghost function Kids(all: map<nat, TreeNode>): (kids: map<nat, seq<TreeNode>>)
    reads all.Values
    ensures kids.Keys == all.Keys
  {
    map p | p in all :: all[p].children
  }

  ghost predicate ListsMatch(all: map<nat, TreeNode>, kids: map<nat, seq<TreeNode>>, par: Links) {
    && kids.Keys == all.Keys && (forall p :: p in all ==> all[p].key.pid == p)
    && (forall p :: p in kids ==> HoldsExactly(all, kids[p], ChildPids(par, p)))
  }

  /** Every node lists exactly the nodes linked to it. */
  ghost predicate WellLinked(all: map<nat, TreeNode>, par: Links)
    reads all.Values
  {
    ListsMatch(all, Kids(all), par)
  }

  /** p is q or hangs somewhere below q. */
  ghost predicate Under(par: Links, p: nat, q: nat) {
    exists k: nat :: Up(par, p, k) == Some(q)
  }

  ghost predicate UnderAny(par: Links, p: nat, list: seq<TreeNode>) {
    exists i :: 0 <= i < |list| && Under(par, p, list[i].key.pid)
  }

  lemma UnderSelfOrChild(par: Links, p: nat, q: nat)
    ensures Under(par, p, q) <==> p == q || exists c :: c in ChildPids(par, q) && Under(par, p, c)
  {
    if Under(par, p, q) && p != q {
      var k: nat :| Up(par, p, k) == Some(q);
      var c := UpLast(par, p, k, q);
      assert c in ChildPids(par, q) && Under(par, p, c);
    }
    if p == q {
      assert Up(par, p, 0) == Some(q);
    }
    if c :| c in ChildPids(par, q) && Under(par, p, c) {
      var k: nat :| Up(par, p, k) == Some(c);
      UpAdd(par, p, k, 1);
      assert Up(par, q, 0) == Some(q);
      assert Up(par, p, k + 1) == Some(q);
    }
  }

  lemma UnderList(all: map<nat, TreeNode>, par: Links, p: nat, q: nat, kids: seq<TreeNode>)
    requires HoldsExactly(all, kids, ChildPids(par, q))
    ensures Under(par, p, q) <==> p == q || UnderAny(par, p, kids)
  {
    UnderSelfOrChild(par, p, q);
    if c :| c in ChildPids(par, q) && Under(par, p, c) {
      assert all[c] in kids;
      var i :| 0 <= i < |kids| && kids[i] == all[c];
      assert c in ChildPids(par, q) && all[c].key.pid == c;
      assert Under(par, p, kids[i].key.pid);
    }
    if i :| 0 <= i < |kids| && Under(par, p, kids[i].key.pid) {
      assert kids[i] in kids;
      assert kids[i].key.pid in ChildPids(par, q);
    }
  }

  lemma UnderAnyGrows(par: Links, p: nat, list: seq<TreeNode>, i: nat)
    requires i < |list|
    ensures UnderAny(par, p, list[..i + 1]) <==> UnderAny(par, p, list[..i]) || Under(par, p, list[i].key.pid)
  {
    var more, less := list[..i + 1], list[..i];
    assert more[i] == list[i];
    assert forall j :: 0 <= j < i ==> more[j] == less[j];
    if UnderAny(par, p, less) {
      var j :| 0 <= j < i && Under(par, p, less[j].key.pid);
      assert Under(par, p, more[j].key.pid);
    }
  }

  lemma KeyLessIsStrictTotal(s: seq<NodeKey>)
    ensures StrictTotalOn(KeyLess, s)
  {
    forall x | x in s
      ensures !KeyLess(x, x)
    {
      StringLessIrreflexive(x.comm);
    }
    forall x, y | x in s && y in s && x != y
      ensures KeyLess(x, y) || KeyLess(y, x)
    {
      if x.comm != y.comm {
        StringLessTotal(x.comm, y.comm);
      }
    }
    forall x, y, z | x in s && y in s && z in s && KeyLess(x, y) && KeyLess(y, z)
      ensures KeyLess(x, z)
    {
      KeyLessTransitive(x, y, z);
    }
  }

  lemma KeyLessTransitive(x: NodeKey, y: NodeKey, z: NodeKey)
    requires KeyLess(x, y) && KeyLess(y, z)
    ensures KeyLess(x, z)
  {
    if x.threats == y.threats == z.threats && x.syscalls == y.syscalls == z.syscalls && x.comm != y.comm && y.comm != z.comm {
      StringLessTransitive(x.comm, y.comm, z.comm);
      if x.comm == z.comm {
        StringLessIrreflexive(x.comm);
      }
    }
  }

  lemma NodeLessIsStrictTotal(all: map<nat, TreeNode>, list: seq<TreeNode>)
    requires AllRegistered(all, list)
    ensures StrictTotalOn(NodeLess, list)
  {
    var keys := seq(|list|, i requires 0 <= i < |list| => list[i].key);
    KeyLessIsStrictTotal(keys);
    forall n | n in list
      ensures n.key in keys && Registered(all, n)
    {
      var i :| 0 <= i < |list| && list[i] == n;
      assert keys[i] == n.key && Registered(all, list[i]);
    }
  }

  /** The children of a node off every cycle are a sound and strictly smaller task for the sort. */
  lemma ChildrenBelow(all: map<nat, TreeNode>, par: Links, pid: nat, kids: seq<TreeNode>)
    requires HoldsExactly(all, kids, ChildPids(par, pid)) && !OnCycle(par, pid)
    ensures forall n :: n in kids ==>
              !OnCycle(par, n.key.pid) && n.key.pid in Descendants(par, pid) &&
              Descendants(par, n.key.pid) <= Descendants(par, pid)
    ensures forall p :: Under(par, p, pid) <==> p == pid || UnderAny(par, p, kids)
  {
    forall n | n in kids
      ensures !OnCycle(par, n.key.pid) && n.key.pid in Descendants(par, pid)
      ensures Descendants(par, n.key.pid) <= Descendants(par, pid)
    {
      DescendantsShrink(par, pid, n.key.pid);
      ChildOffCycle(par, pid, n.key.pid);
    }
    forall p
      ensures Under(par, p, pid) <==> p == pid || UnderAny(par, p, kids)
    {
      UnderList(all, par, p, pid, kids);
    }
  }

  /** From `before` to `after`, the lists at and below q were sorted and no other list changed. */
  ghost predicate SubtreeSorted(par: Links, before: map<nat, seq<TreeNode>>, after: map<nat, seq<TreeNode>>, q: nat) {
    && after.Keys == before.Keys
    && forall p :: p in after ==> if Under(par, p, q) then Sorted(NodeLess, after[p]) else after[p] == before[p]
  }

  /** The same for the subtrees of several nodes. */
  ghost predicate SubtreesSorted(
      par: Links, before: map<nat, seq<TreeNode>>, after: map<nat, seq<TreeNode>>, list: seq<TreeNode>) {
    && after.Keys == before.Keys
    && forall p :: p in after ==> if UnderAny(par, p, list) then Sorted(NodeLess, after[p]) else after[p] == before[p]
  }

  lemma OneMoreSubtree(
      par: Links, before: map<nat, seq<TreeNode>>, mid: map<nat, seq<TreeNode>>, after: map<nat, seq<TreeNode>>,
      list: seq<TreeNode>, i: nat)
    requires i < |list| && SubtreesSorted(par, before, mid, list[..i]) && SubtreeSorted(par, mid, after, list[i].key.pid)
    ensures SubtreesSorted(par, before, after, list[..i + 1])
  {
    forall p | p in after
      ensures UnderAny(par, p, list[..i + 1]) <==> UnderAny(par, p, list[..i]) || Under(par, p, list[i].key.pid)
    {
      UnderAnyGrows(par, p, list, i);
    }
  }

  lemma SubtreeDone(
      all: map<nat, TreeNode>, par: Links, before: map<nat, seq<TreeNode>>, mid: map<nat, seq<TreeNode>>, pid: nat,
      sorted: seq<TreeNode>)
    requires pid in before && HoldsExactly(all, before[pid], ChildPids(par, pid)) && !OnCycle(par, pid)
    requires SubtreesSorted(par, before, mid, before[pid]) && Sorted(NodeLess, sorted)
    ensures SubtreeSorted(par, before, mid[pid := sorted], pid)
  {
    ChildrenBelow(all, par, pid, before[pid]);
  }

  /** The recursive sort. `avail` bounds what is still below, so it returns although nothing forces
      the PPIDs to be acyclic: no cycle is reachable from the nodes it starts at. */
  method SortProcessTree(nodes: seq<TreeNode>, ghost all: map<nat, TreeNode>, ghost par: Links, ghost avail: set<nat>)
      returns (sorted: seq<TreeNode>)
    requires WellLinked(all, par) && AllRegistered(all, nodes) && NoDuplicates(nodes)
    requires forall n :: n in nodes ==>
               !OnCycle(par, n.key.pid) && n.key.pid in avail && Descendants(par, n.key.pid) <= avail
    modifies all.Values
    ensures WellLinked(all, par)
    ensures Sorted(NodeLess, sorted) && NoDuplicates(sorted) && |sorted| == |nodes| && forall n :: n in sorted <==> n in nodes
    ensures SubtreesSorted(par, old(Kids(all)), Kids(all), nodes)
    decreases avail, 0
  {
    NodeLessIsStrictTotal(all, nodes);
    sorted := SortSlice(NodeLess, nodes);
    SortedRegistered(all, nodes, sorted);
    ghost var before := Kids(all);
    for i := 0 to |sorted|
      invariant WellLinked(all, par)
      invariant SubtreesSorted(par, before, Kids(all), sorted[..i])
    {
      var node := sorted[i];
      assert node in sorted && node in nodes;
      ghost var mid := Kids(all);
      SortBelow(node, all, par);
      OneMoreSubtree(par, before, mid, Kids(all), sorted, i);
    }
    assert sorted[..|sorted|] == sorted;
    SameUnderAny(par, nodes, sorted);
  }

  /** One node's whole subtree: its children sorted, and theirs, all the way down. */
  method SortBelow(node: TreeNode, ghost all: map<nat, TreeNode>, ghost par: Links)
    requires WellLinked(all, par) && Registered(all, node) && !OnCycle(par, node.key.pid)
    modifies all.Values
    ensures WellLinked(all, par)
    ensures SubtreeSorted(par, old(Kids(all)), Kids(all), node.key.pid)
    decreases Descendants(par, node.key.pid), 1
  {
    ghost var pid, before := node.key.pid, Kids(all);
    ChildrenBelow(all, par, pid, before[pid]);
    var sorted := SortProcessTree(node.children, all, par, Descendants(par, pid));
    SubtreeDone(all, par, before, Kids(all), pid, sorted);
    SameNodesHold(all, before[pid], sorted, ChildPids(par, pid));
    SetChildren(node, sorted, all);
  }

  method SetChildren(node: TreeNode, list: seq<TreeNode>, ghost all: map<nat, TreeNode>)
    requires Registered(all, node) && forall p :: p in all ==> all[p].key.pid == p
    modifies node
    ensures Kids(all) == old(Kids(all))[node.key.pid := list]
  {
    node.children := list;
  }

  lemma SameNodesHold(all: map<nat, TreeNode>, list: seq<TreeNode>, sorted: seq<TreeNode>, pids: set<nat>)
    requires HoldsExactly(all, list, pids) && NoDuplicates(sorted) && forall n :: n in sorted <==> n in list
    ensures HoldsExactly(all, sorted, pids)
  {
    forall i | 0 <= i < |sorted|
      ensures Registered(all, sorted[i])
    {
      assert sorted[i] in sorted;
      var j :| 0 <= j < |list| && list[j] == sorted[i];
      assert Registered(all, list[j]);
    }
  }

  lemma SortedRegistered(all: map<nat, TreeNode>, list: seq<TreeNode>, sorted: seq<TreeNode>)
    requires AllRegistered(all, list) && StrictTotalOn(NodeLess, list) && Sorted(NodeLess, sorted)
    requires forall n :: n in sorted <==> n in list
    ensures AllRegistered(all, sorted) && NoDuplicates(sorted)
  {
    forall i | 0 <= i < |sorted|
      ensures Registered(all, sorted[i])
    {
      assert sorted[i] in sorted;
      var j :| 0 <= j < |list| && list[j] == sorted[i];
      assert Registered(all, list[j]);
    }
    assert StrictTotalOn(NodeLess, sorted);
    SortedNoDuplicates(NodeLess, sorted);
  }

  lemma SameUnderAny(par: Links, list: seq<TreeNode>, sorted: seq<TreeNode>)
    requires forall n :: n in sorted <==> n in list
    ensures forall p :: UnderAny(par, p, list) <==> UnderAny(par, p, sorted)
  {
    forall p
      ensures UnderAny(par, p, list) <==> UnderAny(par, p, sorted)
    {
      if i :| 0 <= i < |list| && Under(par, p, list[i].key.pid) {
        assert list[i] in sorted;
        var j :| 0 <= j < |sorted| && sorted[j] == list[i];
      }
      if i :| 0 <= i < |sorted| && Under(par, p, sorted[i].key.pid) {
        assert sorted[i] in list;
        var j :| 0 <= j < |list| && list[j] == sorted[i];
      }
    }
  }

  // ---- building the forest ----

  /** A live record is linked to its parent if that is another live record. */
  ghost function LiveLinks(procs: map<nat, ProcessRecord>, alive: set<nat>): Links {
    map p | p in Live(procs, alive) && procs[p].ppid > 0 && procs[p].ppid != p && procs[p].ppid in Live(procs, alive) ::
      procs[p].ppid
  }

  function KeyOf(p: nat, r: ProcessRecord): NodeKey {
    NodeKey(|r.attackPatterns|, r.syscallCount, r.comm, p)
  }

  /** One unlinked node for each live record met so far. */
  ghost predicate Mirrors(all: map<nat, TreeNode>, procs: map<nat, ProcessRecord>, pids: set<nat>) {
    && all.Keys == pids
    && forall p :: p in all ==> p in procs && all[p].key == KeyOf(p, procs[p]) && all[p].ppid == procs[p].ppid
  }

  ghost predicate LinkedSoFar(all: map<nat, TreeNode>, par: Links, done: set<nat>)
    reads all.Values
  {
    forall p :: p in all ==> HoldsExactly(all, all[p].children, ChildPids(par, p) * done)
  }

  lemma HoldsOneMore(all: map<nat, TreeNode>, list: seq<TreeNode>, pids: set<nat>, n: TreeNode)
    requires HoldsExactly(all, list, pids) && Registered(all, n) && n.key.pid !in pids
    ensures HoldsExactly(all, list + [n], pids + {n.key.pid})
  {
    assert n !in list;
  }

  method BuildNodes(db: Store, alive: set<nat>, recordOrder: seq<nat>) returns (nodes: map<nat, TreeNode>)
    requires Enumerates(recordOrder, db.processes.Keys)
    ensures Mirrors(nodes, db.processes, Live(db.processes, alive)) && fresh(nodes.Values)
    ensures forall p :: p in nodes ==> nodes[p].children == []
  {
    nodes := map[];
    ghost var met: set<nat> := {};
    for i := 0 to |recordOrder|
      invariant forall p :: p in met <==> p in recordOrder[..i]
      invariant Mirrors(nodes, db.processes, Live(db.processes, alive) * met)
      invariant forall p :: p in nodes ==> fresh(nodes[p])
      invariant forall p :: p in nodes ==> nodes[p].children == []
    {
      var pid := recordOrder[i];
      assert pid in db.processes.Keys;
      var p := db.processes[pid];
      met := met + {pid};
      if !p.isKilled && pid != 0 && pid in alive {
        var n := new TreeNode(KeyOf(pid, p), p.ppid);
        nodes := nodes[pid := n];
      }
    }
    assert Live(db.processes, alive) * met == Live(db.processes, alive);
  }

  method LinkNodes(nodes: map<nat, TreeNode>, nodeOrder: seq<nat>, ghost par: Links) returns (roots: seq<TreeNode>)
    requires Enumerates(nodeOrder, nodes.Keys) && forall p :: p in nodes ==> nodes[p].key.pid == p && nodes[p].children == []
    requires forall p :: p in par <==> p in nodes && nodes[p].ppid > 0 && nodes[p].ppid != p && nodes[p].ppid in nodes
    requires forall p :: p in par ==> par[p] == nodes[p].ppid
    modifies nodes.Values
    ensures WellLinked(nodes, par) && HoldsExactly(nodes, roots, nodes.Keys - par.Keys)
  {
    roots := [];
    ghost var done: set<nat> := {};
    for i := 0 to |nodeOrder|
      invariant forall p :: p in done <==> p in nodeOrder[..i]
      invariant LinkedSoFar(nodes, par, done)
      invariant HoldsExactly(nodes, roots, (nodes.Keys - par.Keys) * done)
    {
      var pid := nodeOrder[i];
      assert pid in nodes.Keys && pid !in done;
      var node := nodes[pid];
      if node.ppid > 0 && node.ppid != pid && node.ppid in nodes {
        AppendChild(nodes, par, done, node, nodes[node.ppid]);
      } else {
        HoldsOneMore(nodes, roots, (nodes.Keys - par.Keys) * done, node);
        roots := roots + [node];
      }
      DoneGrows(nodes.Keys, par, done, pid);
      done := done + {pid};
    }
    assert nodes.Keys <= done;
    AllDone(nodes.Keys, par, done);
  }

  lemma DoneGrows(keys: set<nat>, par: Links, done: set<nat>, pid: nat)
    requires pid in keys
    ensures (keys - par.Keys) * (done + {pid}) == (keys - par.Keys) * done + if pid in par then {} else {pid}
    ensures pid !in par ==> forall p :: ChildPids(par, p) * (done + {pid}) == ChildPids(par, p) * done
  {
  }

  lemma AllDone(keys: set<nat>, par: Links, done: set<nat>)
    requires keys <= done && par.Keys <= keys
    ensures (keys - par.Keys) * done == keys - par.Keys
    ensures forall p :: ChildPids(par, p) * done == ChildPids(par, p)
  {
  }

  method AppendChild(nodes: map<nat, TreeNode>, ghost par: Links, ghost done: set<nat>, node: TreeNode, parent: TreeNode)
    requires LinkedSoFar(nodes, par, done) && Registered(nodes, node) && Registered(nodes, parent)
    requires forall p :: p in nodes ==> nodes[p].key.pid == p
    requires node.key.pid in par && par[node.key.pid] == parent.key.pid && node.key.pid !in done
    modifies parent
    ensures LinkedSoFar(nodes, par, done + {node.key.pid})
  {
    ghost var pid := node.key.pid;
    HoldsOneMore(nodes, parent.children, ChildPids(par, parent.key.pid) * done, node);
    parent.children := parent.children + [node];
    forall p | p in nodes
      ensures ChildPids(par, p) * (done + {pid}) ==
              if p == parent.key.pid then ChildPids(par, p) * done + {pid} else ChildPids(par, p) * done
    {
    }
  }

  /** Whatever the PPIDs and whatever order the maps are ranged over: every live record is placed once,
      as a root or in its parent's list, and every level that can be reached from a root is sorted. */
  method GetProcessTree(db: Store, alive: set<nat>, recordOrder: seq<nat>, nodeOrder: seq<nat>)
      returns (roots: seq<TreeNode>, nodes: map<nat, TreeNode>)
    requires Enumerates(recordOrder, db.processes.Keys) && Enumerates(nodeOrder, Live(db.processes, alive))
    ensures fresh(nodes.Values) && IsForest(db.processes, alive, nodes, roots)
    ensures ShownInOrder(db.processes, roots)
    ensures forall p :: p in nodes && Rooted(LiveLinks(db.processes, alive), p) ==> ShownInOrder(db.processes, nodes[p].children)
  {
    ghost var par, live := LiveLinks(db.processes, alive), Live(db.processes, alive);
    nodes := BuildNodes(db, alive, recordOrder);
    var unsorted := LinkNodes(nodes, nodeOrder, par);
    forall n | n in unsorted
      ensures !OnCycle(par, n.key.pid) && n.key.pid in live && Descendants(par, n.key.pid) <= live
    {
      RootOffCycle(par, n.key.pid);
    }
    roots := SortProcessTree(unsorted, nodes, par, live);
    SameNodesHold(nodes, unsorted, roots, live - par.Keys);
    forall p | p in nodes && Rooted(par, p)
      ensures UnderAny(par, p, unsorted)
    {
      RootedUnderRoots(nodes, par, p, unsorted);
    }
    ForestIsShownInOrder(db.processes, alive, nodes, roots);
  }

  lemma RootOffCycle(par: Links, r: nat)
    requires r !in par
    ensures !OnCycle(par, r)
  {
    if OnCycle(par, r) {
      CycleStaysInLinks(par, r);
    }
  }

  lemma {:induction false} AncestorsStay(par: Links, live: set<nat>, p: nat, k: nat)
    requires p in live && (forall c :: c in par ==> par[c] in live) && Up(par, p, k).Some?
    ensures Up(par, p, k).value in live
    decreases k
  {
    if k > 0 {
      AncestorsStay(par, live, par[p], k - 1);
    }
  }

  lemma RootedUnderRoots(all: map<nat, TreeNode>, par: Links, p: nat, roots: seq<TreeNode>)
    requires p in all && Rooted(par, p) && (forall c :: c in par ==> par[c] in all)
    requires HoldsExactly(all, roots, all.Keys - par.Keys)
    ensures UnderAny(par, p, roots)
  {
    var r, k := RootOf(par, p);
    AncestorsStay(par, all.Keys, p, k);
    assert r in all.Keys - par.Keys && all[r] in roots;
    var i :| 0 <= i < |roots| && roots[i] == all[r];
    assert Under(par, p, roots[i].key.pid);
  }

  // ---- the forest is a function of the records ----

  ghost function Keys(list: seq<TreeNode>): seq<NodeKey> {
    seq(|list|, i requires 0 <= i < |list| => list[i].key)
  }

  /** Two sorted lists of nodes for the same records show the same keys in the same order. */
  lemma LevelIsDetermined(
      a: map<nat, TreeNode>, s: seq<TreeNode>, b: map<nat, TreeNode>, t: seq<TreeNode>,
      procs: map<nat, ProcessRecord>, live: set<nat>, pids: set<nat>)
    requires Mirrors(a, procs, live) && Mirrors(b, procs, live) && HoldsExactly(a, s, pids) && HoldsExactly(b, t, pids)
    requires Sorted(NodeLess, s) && Sorted(NodeLess, t)
    ensures Keys(s) == Keys(t)
  {
    KeysAre(a, s, procs, live, pids);
    KeysAre(b, t, procs, live, pids);
    KeyLessIsStrictTotal(Keys(s));
    SortedIsUnique(KeyLess, Keys(s), Keys(t));
  }

  lemma KeysAre(all: map<nat, TreeNode>, s: seq<TreeNode>, procs: map<nat, ProcessRecord>, live: set<nat>, pids: set<nat>)
    requires Mirrors(all, procs, live) && HoldsExactly(all, s, pids) && Sorted(NodeLess, s)
    ensures Sorted(KeyLess, Keys(s))
    ensures forall k :: k in Keys(s) <==> k.pid in pids && k.pid in procs && k == KeyOf(k.pid, procs[k.pid])
  {
    forall i | 0 <= i < |s|
      ensures Keys(s)[i].pid in pids && Keys(s)[i].pid in procs && Keys(s)[i] == KeyOf(Keys(s)[i].pid, procs[Keys(s)[i].pid])
    {
      assert s[i] in s && Registered(all, s[i]);
    }
    forall p | p in pids
      ensures p in procs && KeyOf(p, procs[p]) in Keys(s)
    {
      var i :| 0 <= i < |s| && s[i] == all[p];
      assert Keys(s)[i] == KeyOf(p, procs[p]);
    }
  }

  /** A forest as GetProcessTree leaves it. */
  ghost predicate IsForest(procs: map<nat, ProcessRecord>, alive: set<nat>, nodes: map<nat, TreeNode>, roots: seq<TreeNode>)
    reads nodes.Values
  {
    var par, live := LiveLinks(procs, alive), Live(procs, alive);
    && Mirrors(nodes, procs, live) && WellLinked(nodes, par) && HoldsExactly(nodes, roots, live - par.Keys)
    && Sorted(NodeLess, roots) && forall p :: p in nodes && Rooted(par, p) ==> Sorted(NodeLess, nodes[p].children)
  }

  lemma ForestIsShownInOrder(procs: map<nat, ProcessRecord>, alive: set<nat>, nodes: map<nat, TreeNode>, roots: seq<TreeNode>)
    requires IsForest(procs, alive, nodes, roots)
    ensures ShownInOrder(procs, roots)
    ensures forall p :: p in nodes && Rooted(LiveLinks(procs, alive), p) ==> ShownInOrder(procs, nodes[p].children)
  {
    var par, live := LiveLinks(procs, alive), Live(procs, alive);
    SortedIsShownInOrder(nodes, roots, procs, live, live - par.Keys);
    forall p | p in nodes && Rooted(par, p)
      ensures ShownInOrder(procs, nodes[p].children)
    {
      assert HoldsExactly(nodes, Kids(nodes)[p], ChildPids(par, p));
      SortedIsShownInOrder(nodes, nodes[p].children, procs, live, ChildPids(par, p));
    }
  }

  /** So the forest has one shape and one order, whatever order the maps were ranged over. */
  lemma ForestIsDetermined(
      procs: map<nat, ProcessRecord>, alive: set<nat>, a: map<nat, TreeNode>, s: seq<TreeNode>, b: map<nat, TreeNode>,
      t: seq<TreeNode>)
    requires IsForest(procs, alive, a, s) && IsForest(procs, alive, b, t)
    ensures Keys(s) == Keys(t)
    ensures forall p :: p in Live(procs, alive) && Rooted(LiveLinks(procs, alive), p) ==>
              p in a && p in b && Keys(a[p].children) == Keys(b[p].children)
  {
    var par, live := LiveLinks(procs, alive), Live(procs, alive);
    LevelIsDetermined(a, s, b, t, procs, live, live - par.Keys);
    forall p | p in live && Rooted(par, p)
      ensures Keys(a[p].children) == Keys(b[p].children)
    {
      assert HoldsExactly(a, Kids(a)[p], ChildPids(par, p)) && HoldsExactly(b, Kids(b)[p], ChildPids(par, p));
      LevelIsDetermined(a, a[p].children, b, b[p].children, procs, live, ChildPids(par, p));
    }
  }

  /** The order of siblings, as the dashboard shows them: the one with more attack patterns first; of two
      with as many, the one with more syscalls; then by name; then by PID. */
  ghost predicate ShownBefore(procs: map<nat, ProcessRecord>, p: nat, q: nat)
    requires p in procs && q in procs
  {
    var a, b := procs[p], procs[q];
    && |a.attackPatterns| >= |b.attackPatterns|
    && (|a.attackPatterns| == |b.attackPatterns| ==> a.syscallCount >= b.syscallCount)
    && (|a.attackPatterns| == |b.attackPatterns| && a.syscallCount == b.syscallCount ==> a.comm == b.comm || Precedes(a.comm, b.comm))
    && (|a.attackPatterns| == |b.attackPatterns| && a.syscallCount == b.syscallCount && a.comm == b.comm ==> p < q)
  }

  ghost predicate ShownInOrder(procs: map<nat, ProcessRecord>, list: seq<TreeNode>) {
    && (forall i :: 0 <= i < |list| ==> list[i].key.pid in procs)
    && forall i, j :: 0 <= i < j < |list| ==> ShownBefore(procs, list[i].key.pid, list[j].key.pid)
  }

  lemma SortedIsShownInOrder(
      all: map<nat, TreeNode>, list: seq<TreeNode>, procs: map<nat, ProcessRecord>, live: set<nat>, pids: set<nat>)
    requires Mirrors(all, procs, live) && HoldsExactly(all, list, pids) && Sorted(NodeLess, list)
    ensures ShownInOrder(procs, list)
  {
    forall i | 0 <= i < |list|
      ensures list[i].key.pid in procs && list[i].key == KeyOf(list[i].key.pid, procs[list[i].key.pid])
    {
      assert Registered(all, list[i]);
    }
    forall i, j | 0 <= i < j < |list|
      ensures ShownBefore(procs, list[i].key.pid, list[j].key.pid)
    {
      StringLessIff(list[i].key.comm, list[j].key.comm);
      assert NodeLess(list[i], list[j]);
    }
  }

  /** Every live record sits in one list only: the roots', or its one parent's. */
  lemma PlacedOnce(all: map<nat, TreeNode>, par: Links, roots: seq<TreeNode>, p: nat, q: nat)
    requires WellLinked(all, par) && HoldsExactly(all, roots, all.Keys - par.Keys) && p in all && q in all
    requires forall c :: c in par ==> c in all
    ensures all[p] in roots <==> p !in par
    ensures all[p] in all[q].children <==> p in par && par[p] == q
  {
    assert HoldsExactly(all, all[q].children, ChildPids(par, q));
    if p in par {
      assert p in ChildPids(par, par[p]);
    }
  }

  /** A live record is shown below some root exactly when no ancestor of it is on a cycle of PPIDs. */
  lemma ShownIffNoCycleAbove(all: map<nat, TreeNode>, par: Links, roots: seq<TreeNode>, p: nat)
    requires HoldsExactly(all, roots, all.Keys - par.Keys) && p in all && (forall c :: c in par ==> par[c] in all)
    ensures UnderAny(par, p, roots) <==> forall k :: Up(par, p, k).Some? ==> !OnCycle(par, Up(par, p, k).value)
  {
    RootedIffNoCycleAbove(par, p);
    if Rooted(par, p) {
      RootedUnderRoots(all, par, p, roots);
    }
    if i :| 0 <= i < |roots| && Under(par, p, roots[i].key.pid) {
      var k: nat :| Up(par, p, k) == Some(roots[i].key.pid);
      assert roots[i] in roots;
      UpAdd(par, p, k, 1);
      assert Up(par, p, k + 1) == None;
    }
  }

  /** The whole live table is shown exactly when its PPIDs are acyclic. */
  lemma AllShownIffAcyclic(all: map<nat, TreeNode>, par: Links, roots: seq<TreeNode>)
    requires HoldsExactly(all, roots, all.Keys - par.Keys) && forall c :: c in par ==> c in all && par[c] in all
    ensures (forall p :: p in all ==> UnderAny(par, p, roots)) <==> Acyclic(par)
  {
    forall p | p in all
      ensures UnderAny(par, p, roots) ==> !OnCycle(par, p)
      ensures Acyclic(par) ==> UnderAny(par, p, roots)
    {
      ShownIffNoCycleAbove(all, par, roots, p);
      assert Up(par, p, 0) == Some(p);
      if Acyclic(par) {
        AcyclicIsRooted(par, p);
        RootedUnderRoots(all, par, p, roots);
      }
    }
  }

  /** So a live record can be missing from the view: two records that name each other as parent. */
  lemma MutualParentsAreHidden(r: ProcessRecord)
    requires !r.isKilled
    ensures var procs := map[11 := r.(pid := 11, ppid := 12), 12 := r.(pid := 12, ppid := 11)];
            var par := LiveLinks(procs, {11, 12});
            Live(procs, {11, 12}) == {11, 12} && !Rooted(par, 11) && !Rooted(par, 12)
  {
    var procs := map[11 := r.(pid := 11, ppid := 12), 12 := r.(pid := 12, ppid := 11)];
    var par := LiveLinks(procs, {11, 12});
    assert Live(procs, {11, 12}) == {11, 12};
    assert 11 in par && par[11] == 12 && 12 in par && par[12] == 11;
    MutualParents(par, 11, 12);
    MutualParents(par, 12, 11);
  }
}
