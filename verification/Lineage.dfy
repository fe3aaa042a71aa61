/** What events make of the causal graph: the edges they draw, the parent links they set, and when
    either of the two stays free of cycles, for one event and over whole runs. */
module Lineage {
  import opened AttackPatterns
  import opened EdgeLists
  import opened Forest
  import opened NodeIds
  import opened Wrappers

  datatype EventKind = Execve | Openat | ConnectTo | OtherKind

  datatype Event = Event(
    kind: EventKind, pid: nat, ppid: nat, comm: string, payload: string, dstIP: string, dstPort: nat, isWrite: bool,
    retVal: int)

  function TypeName(k: EventKind): string {
    match k
    case Execve => "execve"
    case Openat => "openat"
    case ConnectTo => "connect"
    case OtherKind => "unknown"
  }

  const NOISY_PREFIXES: seq<string> := ["/usr/lib", "/lib64", "/lib", "/usr/share", "/etc/ld.so", "/usr/include",
    "/dev/null", "/sys/", "/proc/", "/etc/fonts", "/var/cache"]

  /** Reads of shared libraries and the like are not drawn; writes always are. */
  predicate IsNoisyFile(path: string, isWrite: bool) {
    !isWrite && exists i | 0 <= i < |NOISY_PREFIXES| :: HasPrefix(path, NOISY_PREFIXES[i])
  }

  /** The edges one event draws, as (source, target, type). */
  ghost function DrawnEdges(evt: Event): seq<(string, string, EdgeType)> {
    match evt.kind
    case Execve =>
      (if evt.payload != "" then [(ProcId(evt.pid), FileId(evt.payload), Exec)] else []) +
      (if evt.ppid > 0 then [(ProcId(evt.ppid), ProcId(evt.pid), Fork)] else [])
    case Openat =>
      if evt.payload != "" && !IsNoisyFile(evt.payload, evt.isWrite)
      then [(ProcId(evt.pid), FileId(evt.payload), if evt.isWrite then OpenWrite else OpenRead)] else []
    case ConnectTo =>
      if evt.dstIP != "" then [(ProcId(evt.pid), SockId(evt.dstIP, evt.dstPort), Connect)] else []
    case OtherKind => []
  }

  ghost predicate Drawn(before: seq<Edge>, after: seq<Edge>, drawn: seq<(string, string, EdgeType)>) {
    && |after| == |before| + |drawn| && before <= after
    && forall i :: 0 <= i < |drawn| ==>
         var e := after[|before| + i];
         e.from == drawn[i].0 && e.to == drawn[i].1 && e.kind == drawn[i].2
  }

  lemma DrawnTwice(
      a: seq<Edge>, b: seq<Edge>, c: seq<Edge>, s: seq<(string, string, EdgeType)>, t: seq<(string, string, EdgeType)>)
    requires Drawn(a, b, s) && Drawn(b, c, t)
    ensures Drawn(a, c, s + t)
  {
    forall i | 0 <= i < |s + t|
      ensures var e := c[|a| + i]; e.from == (s + t)[i].0 && e.to == (s + t)[i].1 && e.kind == (s + t)[i].2
    {
      if i < |s| {
        assert c[|a| + i] == b[|a| + i];
      } else {
        assert c[|a| + i] == c[|b| + (i - |s|)];
      }
    }
  }

  /** What the events settle of the graph: its edges, its parent links and the tracked processes. */
  datatype Shape = Shape(edges: seq<Edge>, par: Links, tracked: set<nat>)

  ghost function Tracking(a: Shape, pid: nat, ppid: nat): Shape {
    Shape(a.edges, if pid in a.tracked || ppid == 0 then a.par else a.par[pid := ppid], a.tracked + {pid})
  }

  /** An exec tracks the parent too, unlinked. */
  ghost function TrackingParent(a: Shape, evt: Event): Shape {
    if evt.kind == Execve && evt.ppid > 0 then Tracking(a, evt.ppid, 0) else a
  }

  ghost predicate Draws(a: Shape, b: Shape, drawn: seq<(string, string, EdgeType)>) {
    Drawn(a.edges, b.edges, drawn) && b.par == a.par && b.tracked == a.tracked
  }

  /** Event evt leads from a to b. */
  ghost predicate Follows(a: Shape, evt: Event, b: Shape) {
    Draws(TrackingParent(Tracking(a, evt.pid, evt.ppid), evt), b, DrawnEdges(evt))
  }

  lemma ExecDraws(a: Shape, b: Shape, c: Shape, evt: Event)
    requires evt.kind == Execve
    requires if evt.payload != "" then Draws(a, b, [(ProcId(evt.pid), FileId(evt.payload), Exec)]) else a == b
    requires if evt.ppid > 0 then Draws(Tracking(b, evt.ppid, 0), c, [(ProcId(evt.ppid), ProcId(evt.pid), Fork)]) else b == c
    ensures Draws(TrackingParent(a, evt), c, DrawnEdges(evt))
  {
    var first := if evt.payload != "" then [(ProcId(evt.pid), FileId(evt.payload), Exec)] else [];
    var second := if evt.ppid > 0 then [(ProcId(evt.ppid), ProcId(evt.pid), Fork)] else [];
    DrawnTwice(a.edges, b.edges, c.edges, first, second);
  }

  /** The links and the tracked processes after one event. */
  ghost function After(a: Shape, evt: Event): Shape {
    TrackingParent(Tracking(a, evt.pid, evt.ppid), evt)
  }

  /** The graph's shapes before the first event, between events and after the last. */
  ghost predicate IsRun(shapes: seq<Shape>, events: seq<Event>) {
    |shapes| == |events| + 1 && forall i :: 0 <= i < |events| ==> Follows(shapes[i], events[i], shapes[i + 1])
  }

  const EMPTY := Shape([], map[], {})

  ghost function AllDrawn(events: seq<Event>): seq<(string, string, EdgeType)> {
    if events == [] then [] else AllDrawn(events[..|events| - 1]) + DrawnEdges(events[|events| - 1])
  }

  /** Over any run the graph holds exactly the edges the events draw, in order. */
  lemma {:induction false} RunDraws(shapes: seq<Shape>, events: seq<Event>, n: nat)
    requires IsRun(shapes, events) && n <= |events|
    ensures Drawn(shapes[0].edges, shapes[n].edges, AllDrawn(events[..n]))
    decreases n
  {
    if n > 0 {
      RunDraws(shapes, events, n - 1);
      assert events[..n][..n - 1] == events[..n - 1];
      DrawnTwice(shapes[0].edges, shapes[n - 1].edges, shapes[n].edges, AllDrawn(events[..n - 1]), DrawnEdges(events[n - 1]));
    }
  }

  // ---- which edge takes which event ----

  /** Where shared libraries, kernel tables and caches live. */
  ghost predicate InSystemPlace(path: string) {
    || Begins(path, "/usr/lib") || Begins(path, "/lib") || Begins(path, "/usr/share") || Begins(path, "/etc/ld.so")
    || Begins(path, "/usr/include") || Begins(path, "/dev/null") || Begins(path, "/sys/") || Begins(path, "/proc/")
    || Begins(path, "/etc/fonts") || Begins(path, "/var/cache")
  }

  lemma NoisyIff(path: string, isWrite: bool)
    ensures IsNoisyFile(path, isWrite) <==> !isWrite && InSystemPlace(path)
  {
    assert "/lib64"[..4] == "/lib";
    assert forall i | 0 <= i < |NOISY_PREFIXES| :: HasPrefix(path, NOISY_PREFIXES[i]) ==> InSystemPlace(path);
    assert NOISY_PREFIXES[0] == "/usr/lib" && NOISY_PREFIXES[2] == "/lib" && NOISY_PREFIXES[3] == "/usr/share";
    assert NOISY_PREFIXES[4] == "/etc/ld.so" && NOISY_PREFIXES[5] == "/usr/include" && NOISY_PREFIXES[6] == "/dev/null";
    assert NOISY_PREFIXES[7] == "/sys/" && NOISY_PREFIXES[8] == "/proc/" && NOISY_PREFIXES[9] == "/etc/fonts";
    assert NOISY_PREFIXES[10] == "/var/cache";
  }

  /** A home directory is no such place. */
  lemma HomeIsNotNoisy(x: string)
    ensures !IsNoisyFile("/home/" + x, false)
  {
    NoisyIff("/home/" + x, false);
    assert ("/home/" + x)[1] == 'h';
  }

  /** What it takes for evt to draw an edge of each type. */
  ghost predicate Causes(evt: Event, from: string, to: string, kind: EdgeType) {
    match kind
    case Exec => evt.kind == Execve && evt.payload != "" && from == ProcId(evt.pid) && to == FileId(evt.payload)
    case Fork => evt.kind == Execve && evt.ppid > 0 && from == ProcId(evt.ppid) && to == ProcId(evt.pid)
    case OpenWrite =>
      evt.kind == Openat && evt.payload != "" && evt.isWrite && from == ProcId(evt.pid) && to == FileId(evt.payload)
    case OpenRead =>
      && evt.kind == Openat && evt.payload != "" && !evt.isWrite && !InSystemPlace(evt.payload)
      && from == ProcId(evt.pid) && to == FileId(evt.payload)
    case Connect =>
      evt.kind == ConnectTo && evt.dstIP != "" && from == ProcId(evt.pid) && to == SockId(evt.dstIP, evt.dstPort)
  }

  /** An event draws the edges it causes, each once. */
  lemma DrawnIff(evt: Event, from: string, to: string, kind: EdgeType)
    ensures (from, to, kind) in DrawnEdges(evt) <==> Causes(evt, from, to, kind)
    ensures forall i, j :: 0 <= i < j < |DrawnEdges(evt)| ==> DrawnEdges(evt)[i] != DrawnEdges(evt)[j]
  {
    NoisyIff(evt.payload, evt.isWrite);
  }

  lemma {:induction false} AllDrawnIff(events: seq<Event>, from: string, to: string, kind: EdgeType)
    ensures (from, to, kind) in AllDrawn(events) <==> exists i :: 0 <= i < |events| && Causes(events[i], from, to, kind)
  {
    if events != [] {
      var init, last := events[..|events| - 1], events[|events| - 1];
      AllDrawnIff(init, from, to, kind);
      DrawnIff(last, from, to, kind);
      assert events == init + [last];
    }
  }

  ghost predicate HasEdge(edges: seq<Edge>, from: string, to: string, kind: EdgeType) {
    exists i :: 0 <= i < |edges| && edges[i].from == from && edges[i].to == to && edges[i].kind == kind
  }

  lemma HasEdgeIffDrawn(edges: seq<Edge>, drawn: seq<(string, string, EdgeType)>, from: string, to: string, kind: EdgeType)
    requires Drawn([], edges, drawn)
    ensures HasEdge(edges, from, to, kind) <==> (from, to, kind) in drawn
  {
    assert forall i :: 0 <= i < |edges| ==>
      var e := edges[0 + i];
      e.from == drawn[i].0 && e.to == drawn[i].1 && e.kind == drawn[i].2;
    assert forall i :: 0 <= i < |drawn| ==> (drawn[i].0, drawn[i].1, drawn[i].2) == drawn[i];
    if HasEdge(edges, from, to, kind) {
      var i :| 0 <= i < |edges| && edges[i].from == from && edges[i].to == to && edges[i].kind == kind;
      assert drawn[i] == (from, to, kind);
    }
    if (from, to, kind) in drawn {
      var i :| 0 <= i < |drawn| && drawn[i] == (from, to, kind);
      assert edges[i].from == from;
    }
  }

  /** After any run from nothing, there is an edge exactly if some event caused it. */
  lemma EdgeIffCaused(shapes: seq<Shape>, events: seq<Event>, from: string, to: string, kind: EdgeType)
    requires IsRun(shapes, events) && shapes[0] == EMPTY
    ensures HasEdge(shapes[|events|].edges, from, to, kind) <==> exists i :: 0 <= i < |events| && Causes(events[i], from, to, kind)
  {
    RunDraws(shapes, events, |events|);
    assert events[..|events|] == events;
    HasEdgeIffDrawn(shapes[|events|].edges, AllDrawn(events), from, to, kind);
    AllDrawnIff(events, from, to, kind);
  }

  // ---- the parent links, which trust follows down ----

  /** Adding the event's process keeps the parent links acyclic: the process is tracked already, has no
      parent, or its parent is neither itself nor listed below it. A check the caller can make first. */
  ghost predicate ClosesNoCycle(par: Links, tracked: set<nat>, pid: nat, ppid: nat) {
    pid in tracked || ppid == 0 || (ppid != pid && !Below(par, ppid, pid))
  }

  ghost predicate LinksTracked(a: Shape) {
    a.par.Keys <= a.tracked
  }

  lemma EventKeepsLinksIff(a: Shape, evt: Event, b: Shape)
    requires LinksTracked(a) && Follows(a, evt, b)
    ensures LinksTracked(b)
    ensures Acyclic(b.par) <==> Acyclic(a.par) && ClosesNoCycle(a.par, a.tracked, evt.pid, evt.ppid)
  {
    if evt.pid !in a.tracked && evt.ppid > 0 {
      AddLinkAcyclicIff(a.par, evt.pid, evt.ppid);
    }
  }

  /** Over a run the links stay acyclic exactly as long as no event closes a cycle. */
  lemma {:induction false} RunKeepsLinksIff(shapes: seq<Shape>, events: seq<Event>, n: nat)
    requires IsRun(shapes, events) && n <= |events| && LinksTracked(shapes[0]) && Acyclic(shapes[0].par)
    ensures LinksTracked(shapes[n])
    ensures Acyclic(shapes[n].par) <==>
            forall i :: 0 <= i < n ==> ClosesNoCycle(shapes[i].par, shapes[i].tracked, events[i].pid, events[i].ppid)
    decreases n
  {
    if n > 0 {
      RunKeepsLinksIff(shapes, events, n - 1);
      EventKeepsLinksIff(shapes[n - 1], events[n - 1], shapes[n]);
    }
  }

  function OpenNothing(pid: nat, ppid: nat): Event {
    Event(Openat, pid, ppid, "", "", "", 0, false, 0)
  }

  /** Two events are enough for a cycle of links: each names the other's process as its parent. */
  lemma LinksCanClose() returns (shapes: seq<Shape>)
    ensures shapes != [] && shapes[0] == EMPTY && IsRun(shapes, [OpenNothing(11, 12), OpenNothing(12, 11)])
    ensures !Acyclic(shapes[2].par)
  {
    var first := After(EMPTY, OpenNothing(11, 12));
    var second := After(first, OpenNothing(12, 11));
    shapes := [EMPTY, first, second];
    assert second.par[11] == 12 && second.par[12] == 11;
    MutualParents(second.par, 11, 12);
  }

  // ---- when a process can be scored ----

  /** The event is handled to its end: its process is trusted, or off every cycle once it is added. */
  ghost predicate Handled(a: Shape, evt: Event, trusted: bool) {
    trusted || !OnCycle(After(a, evt).par, evt.pid)
  }

  /** That is exactly when it is trusted or the trust recursion below it returns; and it can be told
      before the event. */
  lemma HandledIff(a: Shape, evt: Event, trusted: bool)
    requires LinksTracked(a)
    ensures Handled(a, evt, trusted) <==> trusted || exists n :: Returns(After(a, evt).par, evt.pid, n)
    ensures Handled(a, evt, trusted) <==>
            trusted || if evt.pid in a.tracked then !OnCycle(a.par, evt.pid)
                       else ClosesNoCycle(a.par, a.tracked, evt.pid, evt.ppid)
  {
    ReturnsIffOffCycle(After(a, evt).par, evt.pid);
    if evt.pid !in a.tracked {
      if OnCycle(a.par, evt.pid) {
        CycleStaysInLinks(a.par, evt.pid);
      }
      if evt.ppid > 0 {
        LinkOnCycleIff(a.par, evt.pid, evt.ppid);
      }
    }
  }

  lemma LinkOnCycleIff(par: Links, c: nat, a: nat)
    requires c !in par
    ensures OnCycle(par[c := a], c) <==> a == c || Below(par, a, c)
  {
    if OnCycle(par[c := a], c) {
      NewCycleNeedsLoop(par, c, a, c);
      if OnCycle(par, c) {
        CycleStaysInLinks(par, c);
      }
    }
    if a == c || Below(par, a, c) {
      LinkClosesCycle(par, c, a);
    }
  }

  // ---- the edges, which make the graph a DAG or not ----

  ghost predicate IsProcId(id: string) {
    exists p :: id == ProcId(p)
  }

  /** Edges leave processes only. */
  ghost predicate FromProcesses(edges: seq<Edge>) {
    forall e :: e in edges ==> IsProcId(e.from)
  }

  /** An exec closes a cycle of edges when its process leads to its parent already, or is its parent. */
  ghost predicate ClosesEdgeCycle(edges: seq<Edge>, evt: Event) {
    evt.kind == Execve && evt.ppid > 0 && Reachable(edges, ProcId(evt.pid), ProcId(evt.ppid))
  }

  lemma NothingBeyond(edges: seq<Edge>, x: string, y: string)
    requires FromProcesses(edges) && !IsProcId(x) && Reachable(edges, x, y)
    ensures x == y
  {
    forall e | e in edges
      ensures e.from != x
    {
    }
    ClosedSetHoldsReachable(edges, {x}, x);
  }

  /** An edge to a file or a socket closes no cycle and leads to no process. */
  lemma LeafEdge(edges: seq<Edge>, e: Edge)
    requires FromProcesses(edges) && IsProcId(e.from) && !IsProcId(e.to)
    ensures FromProcesses(edges + [e]) && (AcyclicEdges(edges + [e]) <==> AcyclicEdges(edges))
    ensures forall x, y :: IsProcId(y) ==> (Reachable(edges + [e], x, y) <==> Reachable(edges, x, y))
  {
    AppendAcyclicIff(edges, e);
    if Reachable(edges, e.to, e.from) {
      NothingBeyond(edges, e.to, e.from);
    }
    forall x, y | IsProcId(y)
      ensures Reachable(edges + [e], x, y) <==> Reachable(edges, x, y)
    {
      ReachableWithEdge(edges, e, x, y);
      if Reachable(edges, e.to, y) {
        NothingBeyond(edges, e.to, y);
      }
    }
  }

  lemma LeafIds(path: string, addr: string, port: nat)
    ensures !IsProcId(FileId(path)) && !IsProcId(SockId(addr, port))
  {
    forall p
      ensures FileId(path) != ProcId(p) && SockId(addr, port) != ProcId(p)
    {
      PrefixesDisjoint(p, path, addr, port);
    }
  }

  lemma ForkEdge(edges: seq<Edge>, e: Edge, evt: Event)
    requires FromProcesses(edges) && e.from == ProcId(evt.ppid) && e.to == ProcId(evt.pid) && evt.kind == Execve && evt.ppid > 0
    ensures FromProcesses(edges + [e])
    ensures AcyclicEdges(edges + [e]) <==> AcyclicEdges(edges) && !ClosesEdgeCycle(edges, evt)
  {
    AppendAcyclicIff(edges, e);
  }

  lemma DrawnOne(a: seq<Edge>, b: seq<Edge>, d: (string, string, EdgeType)) returns (e: Edge)
    requires Drawn(a, b, [d])
    ensures b == a + [e] && e.from == d.0 && e.to == d.1
  {
    e := b[|a|];
    assert e.from == [d][0].0;
  }

  lemma DrawnBoth(a: seq<Edge>, b: seq<Edge>, c: (string, string, EdgeType), d: (string, string, EdgeType))
      returns (e: Edge, f: Edge)
    requires Drawn(a, b, [c, d])
    ensures b == a + [e] + [f] && e.from == c.0 && e.to == c.1 && f.from == d.0 && f.to == d.1
  {
    e, f := b[|a|], b[|a| + 1];
    assert e.from == [c, d][0].0 && f.from == [c, d][1].0;
  }

  /** One event keeps the graph a DAG exactly when it does not close a cycle: nothing but an exec can,
      and whether it does can be told before, by a search from its process. */
  lemma EventKeepsDagIff(a: seq<Edge>, evt: Event, b: seq<Edge>)
    requires FromProcesses(a) && Drawn(a, b, DrawnEdges(evt))
    ensures FromProcesses(b)
    ensures AcyclicEdges(b) <==> AcyclicEdges(a) && !ClosesEdgeCycle(a, evt)
  {
    LeafIds(evt.payload, evt.dstIP, evt.dstPort);
    var drawn := DrawnEdges(evt);
    if drawn == [] {
      assert b == a;
    } else if |drawn| == 2 {
      var e, f := DrawnBoth(a, b, drawn[0], drawn[1]);
      LeafEdge(a, e);
      ForkEdge(a + [e], f, evt);
    } else {
      var e := DrawnOne(a, b, drawn[0]);
      if drawn[0].2 == Fork {
        ForkEdge(a, e, evt);
      } else {
        LeafEdge(a, e);
      }
    }
  }

  /** Over a run the graph is a DAG exactly as long as no event closes a cycle. */
  lemma {:induction false} RunIsDagIff(shapes: seq<Shape>, events: seq<Event>, n: nat)
    requires IsRun(shapes, events) && n <= |events| && FromProcesses(shapes[0].edges) && AcyclicEdges(shapes[0].edges)
    ensures FromProcesses(shapes[n].edges)
    ensures AcyclicEdges(shapes[n].edges) <==> forall i :: 0 <= i < n ==> !ClosesEdgeCycle(shapes[i].edges, events[i])
    decreases n
  {
    if n > 0 {
      RunIsDagIff(shapes, events, n - 1);
      EventKeepsDagIff(shapes[n - 1].edges, events[n - 1], shapes[n].edges);
    }
  }

  function ExecNothing(pid: nat, ppid: nat): Event {
    Event(Execve, pid, ppid, "", "", "", 0, false, 0)
  }

  /** The links may stay acyclic while the graph does not: 11 starts 12, and later, as a PID reused, 12
      starts 11. The first event has tracked 11 without a parent, so the second sets no link. */
  lemma DagCanClose() returns (shapes: seq<Shape>)
    ensures shapes != [] && shapes[0] == EMPTY && IsRun(shapes, [ExecNothing(12, 11), ExecNothing(11, 12)])
    ensures forall i :: 0 <= i < 3 ==> Acyclic(shapes[i].par)
    ensures Linked(shapes[2].edges, ProcId(11), ProcId(12)) && Linked(shapes[2].edges, ProcId(12), ProcId(11))
    ensures !AcyclicEdges(shapes[2].edges)
  {
    var events := [ExecNothing(12, 11), ExecNothing(11, 12)];
    var e, f := Edge(EdgeId(1), ProcId(11), ProcId(12), Fork), Edge(EdgeId(2), ProcId(12), ProcId(11), Fork);
    var first := After(EMPTY, events[0]).(edges := [e]);
    var second := After(first, events[1]).(edges := [e, f]);
    shapes := [EMPTY, first, second];
    assert first.par == map[12 := 11] && second.par == first.par;
    GrowingLinksAreAcyclic(first.par);
    ReachableSelf(second.edges, ProcId(12));
    ReachableStep(second.edges, ProcId(12), f);
    assert e in second.edges && f in second.edges;
  }

  // ---- PIDs that only grow ----

  lemma {:induction false} AncestorsAreSmaller(par: Links, p: nat, k: nat)
    requires (forall c :: c in par ==> par[c] < c) && Up(par, p, k).Some?
    ensures Up(par, p, k).value <= p && (k > 0 ==> Up(par, p, k).value < p)
    decreases k
  {
    if k > 0 {
      AncestorsAreSmaller(par, par[p], k - 1);
    }
  }

  lemma GrowingLinksAreAcyclic(par: Links)
    requires forall c :: c in par ==> par[c] < c
    ensures Acyclic(par)
  {
    forall p: nat, k: nat | k >= 1
      ensures Up(par, p, k) != Some(p)
    {
      if Up(par, p, k).Some? {
        AncestorsAreSmaller(par, p, k);
      }
    }
  }

  lemma SmallerParentClosesNoCycle(par: Links, tracked: set<nat>, pid: nat, ppid: nat)
    requires (forall c :: c in par ==> par[c] < c) && ppid < pid
    ensures ClosesNoCycle(par, tracked, pid, ppid)
  {
    forall k | k >= 1
      ensures Up(par, ppid, k) != Some(pid)
    {
      if Up(par, ppid, k).Some? {
        AncestorsAreSmaller(par, ppid, k);
      }
    }
  }

  /** Edges between processes lead to larger PIDs. */
  ghost predicate EdgesClimb(edges: seq<Edge>) {
    forall e, p, q :: e in edges && e.from == ProcId(p) && e.to == ProcId(q) ==> p < q
  }

  ghost predicate NamesSmaller(id: string, p: nat) {
    exists r: nat :: id == ProcId(r) && r < p
  }

  lemma EdgeClimbsOn(edges: seq<Edge>, e: Edge, p: nat)
    requires FromProcesses(edges) && EdgesClimb(edges) && e in edges && !NamesSmaller(e.from, p)
    ensures !NamesSmaller(e.to, p)
  {
    assert IsProcId(e.from);
    var r: nat :| e.from == ProcId(r);
    assert r >= p;
  }

  lemma ReachedIsLarger(edges: seq<Edge>, p: nat, b: string)
    requires FromProcesses(edges) && EdgesClimb(edges) && Reachable(edges, ProcId(p), b)
    ensures !NamesSmaller(b, p)
  {
    var all := {ProcId(p)} + set e | e in edges :: e.to;
    var larger := set x | x in all && !NamesSmaller(x, p);
    forall r | ProcId(p) == ProcId(r)
      ensures r == p
    {
      ProcIdInjective(p, r);
    }
    forall e | e in edges && e.from in larger
      ensures e.to in larger
    {
      EdgeClimbsOn(edges, e, p);
    }
    ClosedSetHoldsReachable(edges, larger, ProcId(p));
  }

  lemma GrowingEventClimbs(a: seq<Edge>, evt: Event, b: seq<Edge>)
    requires FromProcesses(a) && EdgesClimb(a) && Drawn(a, b, DrawnEdges(evt)) && evt.ppid < evt.pid
    ensures EdgesClimb(b) && !ClosesEdgeCycle(a, evt)
  {
    LeafIds(evt.payload, evt.dstIP, evt.dstPort);
    forall e, p, q | e in b && e.from == ProcId(p) && e.to == ProcId(q)
      ensures p < q
    {
      if e !in a {
        var i :| 0 <= i < |b| && b[i] == e;
        assert e.from == DrawnEdges(evt)[i - |a|].0 && e.to == DrawnEdges(evt)[i - |a|].1;
        ProcIdInjective(p, evt.ppid);
        ProcIdInjective(q, evt.pid);
      }
    }
    if Reachable(a, ProcId(evt.pid), ProcId(evt.ppid)) {
      ReachedIsLarger(a, evt.pid, ProcId(evt.ppid));
    }
  }

  /** While PIDs only grow from parent to child, the links stay acyclic and the graph a DAG; it takes a
      PID that is reused, or a process that is its own parent. */
  lemma {:induction false} GrowingPidsKeepBoth(shapes: seq<Shape>, events: seq<Event>, n: nat)
    requires IsRun(shapes, events) && shapes[0] == EMPTY && n <= |events|
    requires forall i :: 0 <= i < |events| ==> events[i].ppid < events[i].pid
    ensures (forall c :: c in shapes[n].par ==> shapes[n].par[c] < c) && Acyclic(shapes[n].par) && LinksTracked(shapes[n])
    ensures FromProcesses(shapes[n].edges) && EdgesClimb(shapes[n].edges) && AcyclicEdges(shapes[n].edges)
    decreases n
  {
    if n > 0 {
      var a, evt, b := shapes[n - 1], events[n - 1], shapes[n];
      GrowingPidsKeepBoth(shapes, events, n - 1);
      SmallerParentClosesNoCycle(a.par, a.tracked, evt.pid, evt.ppid);
      EventKeepsLinksIff(a, evt, b);
      EventKeepsDagIff(a.edges, evt, b.edges);
      GrowingEventClimbs(a.edges, evt, b.edges);
    }
  }
}
